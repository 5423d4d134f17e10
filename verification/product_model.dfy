/** The product schema: required fields, the discount default and the creation time. */
module ProductModel {
  import opened Base

  /** A stored product. `discount` is absent after an update that sent none. */
  datatype Product = Product(id: Id, name: string, price: real, size: string, discount: Option<real>,
                             image: string, createdAt: int)

  /** The five fields a create or update request carries; an empty string stands for a missing one. */
  datatype ProductInput = ProductInput(name: string, price: Option<real>, size: string, discount: Option<real>,
                                       image: string)

  /** `name`, `price`, `size` and `image` are required; `discount` is not. */
  predicate InputComplete(p: ProductInput) {
    p.name != "" && p.price.Some? && p.size != "" && p.image != ""
  }

  /** What validation demands of a stored product. */
  predicate Valid(p: Product) {
    p.name != "" && p.size != "" && p.image != ""
  }

  /** `new Product({...})`: the fields given, `discount` defaulting to 0, `createdAt` the time of creation. */
  function NewProduct(id: Id, input: ProductInput, now: int): (p: Product)
    requires InputComplete(input)
    ensures Valid(p) && p.id == id && p.createdAt == now
    ensures p.name == input.name && p.price == input.price.value && p.size == input.size && p.image == input.image
    ensures p.discount == Some(if input.discount.Some? then input.discount.value else 0.0)
  {
    Product(id, input.name, input.price.value, input.size,
            Some(if input.discount.None? then 0.0 else input.discount.value), input.image, now)
  }

  /** The five assignments before `save`: every other field, `createdAt` included, is kept. */
  function Overwrite(p: Product, input: ProductInput): (q: Product)
    requires InputComplete(input)
    ensures Valid(q) && q.id == p.id && q.createdAt == p.createdAt
    ensures q.name == input.name && q.price == input.price.value && q.size == input.size
    ensures q.discount == input.discount && q.image == input.image
  {
    p.(name := input.name, price := input.price.value, size := input.size, discount := input.discount,
       image := input.image)
  }
}
