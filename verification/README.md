# Nike shop — a Dafny model

This project models the logic of a small shoe shop built from an Express/Mongoose
server and a React client, and proves properties of it.

On the server side it models:

- the two access guards, `protect` and `adminOnly`;
- the order, user, user-administration and product route handlers, over three
  collections held by one `Store.Db` object;
- the order and product schemas: their enum, defaults and required fields.

On the client side it models:

- the cart kept by the application shell;
- the catalog's filter pipeline and its size selection;
- the cart page's money columns and buttons;
- the checkout page's size check, order request and submit effect;
- the customer's order list;
- the admin dashboard's figures and the admin order table;
- the two route guards.

Foreign calls become inputs:

- `jwt.verify` is an arrow `string -> Option<Id>`, where `None` means that verification throws;
- `bcrypt.compare` and `bcrypt.hash` are arrows;
- `User.findById` reads the users map;
- the configured admin secret is a parameter;
- fresh document ids and `Date.now` are parameters;
- the answer of each HTTP request the client sends is a parameter.

Server handlers are methods that take the store. Each one's `ensures` states the reply
for every branch and the new content of the one collection it may change; the
`modifies` frame gives "the other collections are untouched". `Db.Valid()` is
kept by every handler. It says that:

- map keys are record ids;
- emails are unique;
- every stored order and product passes its schema.

Client code that builds new arrays is modelled as functions over sequences.
The catalog's filter effect and the checkout submit handler reassign state step
by step, so they are methods. Amounts use exact `real` arithmetic.

The model follows the code as written:

- A status update accepts any of the four stored statuses from any status. No
  transition order is enforced, and the route only runs `protect`.
- Creating an order and listing one's own orders require an admin caller,
  because both routes run `adminOnly`.
- Email lookups compare the string exactly. The user schema file is not part of
  this model, so no lower-casing or trimming is assumed.

Observations the model makes visible:

- The client's order list colours and offers cancel only for the words
  `pending`, `processing`, `shipped`, `delivered` and `cancelled`. The server
  stores Vietnamese labels, so every stored order gets the default colour and no
  cancel button (`MyOrders.StoredStatusesUncoloured`). For the same reason the
  dashboard's three counters are always zero
  (`AdminDashboard.DashboardCountersAlwaysZero`).
- Through `protect` then `adminOnly`, a valid token for a deleted user gets 403,
  not 401 (`AuthMiddleware.DeletedUserIsForbidden`).
- The role update replies with the whole user document, password field included
  (`UserAdminRoutes.SetAdmin`).
- When the admin order list fails to load, the page shows the error and the
  "no orders" notice together (`AdminOrders.FailedLoadAlsoShowsEmptyNotice`).

## Model

| member | source | states |
|---|---|---|
| AuthMiddleware.Split | backend/middleware/authMiddleware.js:8 | `split(' ')`: at least one piece, the first piece runs up to the first space, and no piece contains a space |
| AuthMiddleware.JoinSplit | backend/middleware/authMiddleware.js:8 | joining the pieces with single spaces gives back the header, so the split loses nothing |
| AuthMiddleware.SecondPieceIsToken | backend/middleware/authMiddleware.js:8 | for a header starting with "Bearer ", the second piece is the text between the first and second space |
| AuthMiddleware.Protect | backend/middleware/authMiddleware.js:4-18 | no header, or one not starting with the case-sensitive "Bearer ", gives 401 "Chưa có token"; a token that fails verification gives 401 "Token không hợp lệ"; otherwise `next` runs with the looked-up user without password, or with null when there is no such user |
| AuthMiddleware.AdminOnly | backend/middleware/authMiddleware.js:20-26 | `next` runs exactly when a user is attached and is an admin; otherwise 403 "Không có quyền admin" |
| AuthMiddleware.ProtectAdmin | backend/middleware/authMiddleware.js:4-26 | the two guards in sequence pass exactly when the token verifies to a stored admin, attach that user without password, and otherwise answer 401 or 403 |
| AuthMiddleware.ExtraWordsIgnored | backend/middleware/authMiddleware.js:8 | "Bearer a b" verifies the token "a" |
| AuthMiddleware.LowercaseBearerRefused | backend/middleware/authMiddleware.js:6 | a header starting with "bearer " is answered 401 "Chưa có token" |
| AuthMiddleware.DeletedUserIsForbidden | backend/middleware/authMiddleware.js:10-11 | a valid token whose user is gone passes `protect` with no user and is refused 403, not 401, by `adminOnly` |
| OrderModel.Label | backend/models/orderModel.js:25-28 | each status is stored as its own entry of the schema's `enum` list, and only the default status as "Chờ xử lý" |
| OrderModel.ParseStatus | backend/models/orderModel.js:25-28 | a status string is accepted exactly when it is one of the four labels, and is read back as the status with that label |
| OrderModel.LabelRoundTrip | backend/models/orderModel.js:27 | every status's label parses back to that status |
| OrderModel.ToItems | backend/models/orderModel.js:15-24 | stored items correspond one to one with the posted items; each keeps name, size, quantity and price, and drops the id and the discount |
| OrderModel.NewOrder | backend/models/orderModel.js:3-34 | a new order has the caller as user, the given shipping info, the posted items, status "Chờ xử lý" and the creation time; it is valid exactly when name, address and phone are present |
| ProductModel.NewProduct | backend/models/Product.js:3-10 | a product built from complete input is valid, copies the five fields, takes the creation time, and has discount 0 when none is given |
| ProductModel.Overwrite | backend/routes/productRoutes.js:46-50 | the five fields are overwritten from the input while the id and the creation time stay |
| Store.Db.constructor | backend/models/orderModel.js:3-36 | a new store is empty and satisfies `Db.Valid()`, the invariant every handler keeps: each record filed under its own id, emails unique, every order and product passing its schema |
| Store.KeysOf | backend/routes/userAdminRoutes.js:9 | lists every key of a collection exactly once |
| OrderRoutes.InsertByDate | backend/routes/orderRoutes.js:31 | inserting into a list sorted newest first keeps it sorted, and the result holds the old orders and the new one, each exactly as often as before plus the new one once (multiset) |
| OrderRoutes.InsertKeepsIdsUnique | backend/routes/orderRoutes.js:31 | inserting an order with a new id keeps the ids of the list distinct |
| OrderRoutes.Query | backend/routes/orderRoutes.js:31 | `find(...).sort({createdAt: -1})`: exactly the selected orders, each once, newest first |
| OrderRoutes.CreateOrder | backend/routes/orderRoutes.js:8-26 | a caller refused by the guards gets their reply; missing or empty items give 400 "Giỏ hàng trống"; incomplete shipping info gives 500 "Đặt hàng thất bại"; these three leave the orders unchanged; otherwise the caller's new order is stored under a fresh id and returned with 201 |
| OrderRoutes.MyOrders | backend/routes/orderRoutes.js:29-37 | behind both guards, returns exactly the caller's orders, newest first |
| OrderRoutes.Populate | backend/routes/orderRoutes.js:43 | `populate('user', 'name email')`: each order keeps its place and gets its owner's id, name and email, or none when the owner is gone |
| OrderRoutes.AdminOrders | backend/routes/orderRoutes.js:40-48 | behind both guards, returns every order once, newest first, each with its owner |
| OrderRoutes.UpdateStatus | backend/routes/orderRoutes.js:51-64 | behind `protect` only: an unknown id gives 404 and changes nothing; a word that is not a label gives 500 and changes nothing; otherwise only that order's status changes, whatever it was before, and the reply holds "Cập nhật thành công" and the saved order |
| UserRoutes.Issue | backend/routes/userRoutes.js:17-26 | the token carries the user's id and lifetime "7d", and the reply body holds id, name, email and admin flag but no password |
| UserRoutes.AddKeepsEmailsUnique | backend/routes/userRoutes.js:12-15 | adding a user whose email is not taken keeps emails unique |
| UserRoutes.Register | backend/routes/userRoutes.js:9-30 | a taken email gives 400 "Email đã tồn tại" and stores nothing; otherwise exactly one non-admin user is added and a session is issued for it |
| UserRoutes.Login | backend/routes/userRoutes.js:33-55 | an unknown email gives 401 "Email không tồn tại"; for the user with that email a failed comparison gives 401 "Mật khẩu không đúng" and a match issues a session; no user is changed |
| UserRoutes.RegisterAdmin | backend/routes/userRoutes.js:59-85 | a wrong admin password gives 403 before any lookup; a taken email gives 400; otherwise exactly one admin with the hashed password is added and returned with 201 |
| UserAdminRoutes.FindAllPublic | backend/routes/userAdminRoutes.js:9 | `find().select('-password')`: every stored user once, each without password |
| UserAdminRoutes.ListUsers | backend/routes/userAdminRoutes.js:7-14 | behind both guards, returns every user once, each without password |
| UserAdminRoutes.DeleteUser | backend/routes/userAdminRoutes.js:17-25 | behind both guards, an unknown id gives 404 "Không tìm thấy user"; otherwise exactly that user is removed |
| UserAdminRoutes.SetAdmin | backend/routes/userAdminRoutes.js:28-40 | behind both guards, an unknown id gives 404 "Không tìm thấy người dùng"; otherwise only that user's admin flag changes, to the requested value, and the reply holds "Cập nhật thành công" and the saved user |
| ProductRoutes.ListProducts | backend/routes/productRoutes.js:7-10 | unguarded, returns every product once |
| ProductRoutes.CreateProduct | backend/routes/productRoutes.js:13-24 | behind both guards, incomplete input gives 500 "Không thể thêm sản phẩm" and stores nothing; otherwise the new product is stored and returned with 201 |
| ProductRoutes.DeleteProduct | backend/routes/productRoutes.js:27-36 | behind both guards, an unknown id gives 404; otherwise exactly that product is removed |
| ProductRoutes.UpdateProduct | backend/routes/productRoutes.js:39-57 | behind both guards, an unknown id gives 404; incomplete input gives 500 and changes nothing; otherwise exactly that product is overwritten |
| App.AddToCart | frontend/src/App.js:156-166 | a product already in the cart gains one unit on its line, with length, order and the size chosen first all kept; a new product is appended with one unit and the chosen size |
| Base.Filter | frontend/src/App.js:169 | `Array.prototype.filter`: the result holds exactly the elements that pass the test and is no longer than the input |
| App.RemoveFromCart | frontend/src/App.js:168-171 | every line of that product is removed and only those |
| App.RemoveKeepsOrder | frontend/src/App.js:169 | removal works piece by piece on a split cart, so the surviving lines keep their order |
| App.RemoveOneLine | frontend/src/App.js:169 | in a cart free of duplicates, removing the product on line i leaves exactly the other lines, in order |
| App.NewQuantity | frontend/src/App.js:176-177 | the new quantity is the old plus the change when that is positive, and 1 otherwise |
| App.UpdateQuantity | frontend/src/App.js:173-182 | only the lines of that product change, and only their quantity |
| App.Badge | frontend/src/App.js:218 | the sum of the quantities is at least the number of lines while every line holds a unit |
| App.BadgeAppend | frontend/src/App.js:218 | the badge of two carts together is the sum of their badges |
| App.AddKeepsIdsUnique | frontend/src/App.js:156-166 | adding keeps a cart free of duplicate products |
| App.AddRaisesBadgeByOne | frontend/src/App.js:218 | in a cart free of duplicates every add raises the badge by exactly one |
| App.CartKeepsQuantitiesPositive | frontend/src/App.js:156-182 | add, remove and update keep every quantity at least 1 |
| App.AbsentIdLeavesCart | frontend/src/App.js:169-180 | removing or updating a product not in the cart leaves the cart as it was |
| App.CatalogAddAppendsChoice | frontend/src/App.js:163-164 | the catalog's add forwards the product with the chosen size, which a cart without it appends with one unit |
| Home.ToLower | frontend/src/pages/Home.js:82-83 | lower-casing keeps the length and lower-cases each character |
| Home.TrimEmptyIffBlank | frontend/src/pages/Home.js:81 | the trimmed search is empty exactly when the box holds only white space |
| Home.Visible | frontend/src/pages/Home.js:80-100 | a shown product has the chosen size, lies in the chosen price range, has at least the chosen discount and contains the non-blank search; with search, size and discount inactive only the price range decides |
| Home.FilterEffect | frontend/src/pages/Home.js:78-103 | the four stages leave exactly the products, in their original order, that pass every active filter |
| Home.NoFiltersShowAll | frontend/src/pages/Home.js:79-102 | with every control empty the whole list is shown |
| Home.BlankSearchIgnored | frontend/src/pages/Home.js:81 | a search box holding only white space filters nothing |
| Home.PriceRangesPartition | frontend/src/pages/Home.js:90-96 | every price lies in exactly one of the three ranges |
| Home.SearchIgnoresCase | frontend/src/pages/Home.js:81-84 | typing the keyword in upper or lower case shows the same products |
| Home.SelectSize | frontend/src/pages/Home.js:105-110 | choosing a size records it for that product and keeps every other choice |
| Home.AddSelected | frontend/src/pages/Home.js:112-120 | without a chosen size nothing is added; otherwise the product is forwarded with its size |
| Home.SelectThenAdd | frontend/src/pages/Home.js:105-120 | choosing a size and then pressing add forwards the product with that size |
| CartPage.Total | frontend/src/pages/Cart.js:35-38 | the reduce total is never negative while prices and quantities are non-negative and discounts at most 100 percent |
| CartPage.TotalIsSumOfLines | frontend/src/pages/Cart.js:35-38 | the total equals the sum of the line amounts; the checkout summary uses the same expressions |
| CartPage.TotalAppend | frontend/src/pages/Cart.js:35-38 | the total of two carts together is the sum of their totals |
| CartPage.UndiscountedLine | frontend/src/pages/Cart.js:167 | without a discount a line costs price times quantity |
| CartPage.IncreaseAddsOne | frontend/src/pages/Cart.js:156 | plus adds one unit to that line and leaves every other line as it was |
| CartPage.DecreaseStopsAtOne | frontend/src/pages/Cart.js:146 | minus on a line with one unit leaves it at one |
| CartPage.DeleteRemovesProduct | frontend/src/pages/Cart.js:49-50 | the bin removes that product and keeps the lines of every other product; in a cart free of duplicates exactly that line goes and the others keep their order |
| CartPage.View | frontend/src/pages/Cart.js:71 | the empty notice shows exactly for an empty cart; otherwise the table shows every line and the total |
| Checkout.OrderItems | frontend/src/pages/Checkout.js:75-82 | the request has one item per cart line, in order, copying id, name, price, discount and quantity, with the chosen size as the size |
| Checkout.StoredOrderFollowsCart | frontend/src/pages/Checkout.js:75-89 | an order the server stores from the request keeps the cart's lines in order, with the chosen sizes, and without discounts |
| Checkout.SizeCheckMeansSizedItems | frontend/src/pages/Checkout.js:65 | a cart passes the size check exactly when every requested item has a size, and an empty cart passes it |
| Checkout.Page.constructor | frontend/src/pages/Checkout.js:37-45 | the page starts with an empty form and no error |
| Checkout.Page.Change | frontend/src/pages/Checkout.js:55-57 | one input of the form changes and nothing else |
| Checkout.Page.Submit | frontend/src/pages/Checkout.js:59-102 | a missing size sets the error and sends nothing; otherwise the form and items are sent; success empties the cart; failure keeps the cart and shows the server message or "Đặt hàng thất bại"; loading ends false on every path |
| Base.MessageOr | frontend/src/pages/Checkout.js:96 | the server's non-empty message is shown, else the page's fallback |
| MyOrders.StatusColor | frontend/src/pages/MyOrders.js:68-83 | the five known words get their colours and every other status gets "default" |
| MyOrders.CanCancel | frontend/src/pages/MyOrders.js:209 | the cancel button shows exactly for "pending" and "processing" |
| MyOrders.CancelButtonStatuses | frontend/src/pages/MyOrders.js:68-83 | the cancel button shows exactly for the two statuses coloured "warning" and "info" |
| MyOrders.StoredStatusesUncoloured | frontend/src/pages/MyOrders.js:68-83 | every status the server stores gets the default colour and no cancel button |
| MyOrders.ChipLabel | frontend/src/pages/MyOrders.js:202 | the chip shows the status, or "Đang xử lý" when it is empty |
| MyOrders.SizeLabel | frontend/src/pages/MyOrders.js:190 | a line shows its size, or "Chưa chọn" when it has none |
| MyOrders.ShortId | frontend/src/pages/MyOrders.js:185 | the code shown is the last six characters of the id, or the whole of a shorter id |
| MyOrders.QuantityColumn | frontend/src/pages/MyOrders.js:194 | with every line holding a unit, the quantity column is at least the number of lines |
| MyOrders.LineAmount | frontend/src/pages/MyOrders.js:197 | a line's discounted amount is never negative for a non-negative quantity and price and a discount of at most 100 percent |
| MyOrders.TotalColumn | frontend/src/pages/MyOrders.js:196-198 | the total column is never negative while every line is of that kind |
| MyOrders.ColumnsAppend | frontend/src/pages/MyOrders.js:194-198 | the quantity and total columns add up over a split of the lines |
| MyOrders.CancelOrder | frontend/src/pages/MyOrders.js:96-108 | a declined or failed cancel leaves the list; a successful one drops that order only |
| MyOrders.CancelRemovesOneRow | frontend/src/pages/MyOrders.js:102 | in a list of distinct ids, cancelling the i-th order removes exactly that entry and keeps the rest in order |
| MyOrders.View | frontend/src/pages/MyOrders.js:140-161 | spinner while loading, then the error text as fetched, then the empty notice, then the table |
| AdminDashboard.RevenueAppend | frontend/src/pages/AdminDashboard.js:65-67 | revenue is additive over concatenated order lists |
| AdminDashboard.ItemsGross | frontend/src/pages/AdminDashboard.js:66 | an order's gross amount is never negative for non-negative prices and quantities |
| AdminDashboard.Revenue | frontend/src/pages/AdminDashboard.js:65-67 | the revenue over every listed order, whatever its status, is never negative for non-negative prices and quantities |
| AdminDashboard.CountStatus | frontend/src/pages/AdminDashboard.js:69-71 | a counter never exceeds the number of orders |
| AdminDashboard.UnlabelledStatusCountsZero | frontend/src/pages/AdminDashboard.js:69-71 | a counter for a word that is no stored label is zero |
| AdminDashboard.DashboardCountersAlwaysZero | frontend/src/pages/AdminDashboard.js:69-71 | the pending, processing and shipped counters are always zero |
| AdminDashboard.CountersDisjoint | frontend/src/pages/AdminDashboard.js:69-71 | counters for three different words add up to at most the number of orders |
| AdminOrders.OrderTotal | frontend/src/pages/AdminOrders.js:87 | the total column is never negative for non-negative prices and quantities |
| AdminOrders.OrderTotalIsGross | frontend/src/pages/AdminOrders.js:87 | the table's total of an order is the amount the dashboard counts for it: quantity times price, discount ignored |
| AdminOrders.OwnerCell | frontend/src/pages/AdminOrders.js:66 | the owner's name, or "Ẩn" when there is no owner or no name |
| AdminOrders.StatusOptionsAreLabels | frontend/src/pages/AdminOrders.js:80-83 | the selector offers exactly the four stored labels |
| AdminOrders.ChangeStatus | frontend/src/pages/AdminOrders.js:33-44 | the choice is sent for that order; success reloads the list and failure raises an alert |
| AdminOrders.ChosenStatusIsStored | frontend/src/pages/AdminOrders.js:76-83 | every option the selector sends passes the server's status check and is stored as that label |
| AdminOrders.View | frontend/src/pages/AdminOrders.js:49-52 | the notice and the table never show together; once loaded, the notice shows exactly for an empty list |
| AdminOrders.FailedLoadAlsoShowsEmptyNotice | frontend/src/pages/AdminOrders.js:50-51 | a failed load shows the error together with the "no orders" notice |
| RouteGuards.AdminRoute | frontend/src/components/AdminRoute.js:5-17 | no user goes to /login, a non-admin to /, and only an admin sees the page |
| RouteGuards.AdminRouteIgnoresToken | frontend/src/components/AdminRoute.js:6 | the admin guard reads only the user, never the token |
| RouteGuards.PrivateRoute | frontend/src/components/PrivateRoute.js:5-9 | a non-empty token shows the page; anything else replaces it by /login |
| RouteGuards.PrivateRouteIgnoresUser | frontend/src/components/PrivateRoute.js:6-8 | the decision depends on the token only |

## Left out

- Database and network failures are not modelled: every 500 answer raised by a failing query, and every failed client request other than the ones the pages handle. A Mongoose validation failure on save is modelled with the source's 500 message.
- A status update whose body has no `status` is not modelled: Mongoose would unset the field. The model takes the status as a string.
- `jsonwebtoken` signing and verification are not modelled: keys, expiry arithmetic and the token encoding. A token is the pair (user id, "7d"), and verification is an input.
- `bcrypt` is not modelled. Comparison and hashing are inputs.
- Password hashing inside the user schema is not modelled, because `backend/models/userModel.js` is not part of this model. `UserRoutes.Register` stores the password as received.
- Mongoose strict-mode field stripping and type casting are not modelled. The posted order items keep their declared shape. A missing or empty required string is `""`, and a missing number is `None`.
- OrderRoutes.Query: promises contents, uniqueness and newest-first order, but not the order among orders with the same creation time. Mongo returns those in natural order, which the model does not fix.
- ProductRoutes.ListProducts: promises every product once, but not the natural order of `find()`. `UserAdminRoutes.ListUsers` makes the same promise about users.
- JavaScript numbers are not modelled: IEEE rounding, `NaN`, `toLocaleString` and date formatting. Amounts are exact reals. The stored order items have no discount, so the customer's total column is `NaN` at run time; `MyOrders` reads a discount field as the page expects.
- A product without a discount is not modelled on the client. The server stores one after an update that sends no discount, but `Home.Product`, and the cart and checkout built on it, always carry a number. Such a product would be hidden by any active discount filter (`undefined >= n` is false), and its cart amounts would be `NaN`.
- Home.ToLower: lower-cases ASCII letters only. JavaScript's Unicode case mapping is not modelled.
- Home.TrimEmptyIffBlank: uses a fixed set of white-space characters, not JavaScript's full white-space class.
- Browser state is not modelled: localStorage persistence of the cart and of the theme, React rendering, layout, animations, toasts and navigation timers.
- The login notice that Checkout and MyOrders show when no token is stored is not modelled separately. The pages are mounted behind `PrivateRoute`, which `RouteGuards.PrivateRoute` models.
- The server request behind the customer's cancel button is not modelled: no route handles `DELETE /api/orders/:id`. `MyOrders.CancelOrder` takes the answer as an input.
- The form-only pages are not part of this model: login, register, admin register, admin users, admin products and the admin layout.
- Server start-up, route mounting and the database connection are not modelled, since they are I/O.
