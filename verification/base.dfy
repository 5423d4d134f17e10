/** Shared building blocks: identifiers, optional values, handler replies and sequence filtering. */
module Base {

  /** A Mongo ObjectId as it travels in JSON: an opaque string. */
  type Id = string

  datatype Option<T> = None | Some(value: T)

  /** What a route handler answers: a status code with a JSON body, or a status code with a message. */
  datatype Reply<T> = Ok(status: nat, body: T) | Fail(status: nat, message: string)

  /**
   * The text a page shows after a failed request: the server's message when it
   * sent a non-empty one, else the page's own fallback.
   */
  function MessageOr(message: Option<string>, fallback: string): (t: string)
    ensures message.Some? && message.value != "" ==> t == message.value
    ensures message.None? || message.value == "" ==> t == fallback
    ensures fallback != "" ==> t != ""
  {
    if message.Some? && message.value != "" then message.value else fallback
  }

  /** `Array.prototype.filter`: the elements that `keep` accepts, in their original order. */
  function Filter<T(!new)>(s: seq<T>, keep: T -> bool): (r: seq<T>)
    ensures |r| <= |s|
    ensures forall x {:trigger x in r} :: x in r <==> x in s && keep(x)
  {
    if s == [] then [] else (if keep(s[0]) then [s[0]] else []) + Filter(s[1..], keep)
  }

  /** Filtering twice keeps what both tests accept, in the same order. */
  lemma {:induction false} FilterTwice<T(!new)>(s: seq<T>, first: T -> bool, second: T -> bool, both: T -> bool)
    requires forall x :: both(x) <==> first(x) && second(x)
    ensures Filter(Filter(s, first), second) == Filter(s, both)
  {
    if s != [] {
      FilterTwice(s[1..], first, second, both);
      var rest := Filter(s[1..], first);
      if first(s[0]) {
        assert Filter(s, first) == [s[0]] + rest;
        assert ([s[0]] + rest)[1..] == rest;
      } else {
        assert Filter(s, first) == rest;
      }
    }
  }

  /** A filter that accepts every element returns the sequence unchanged. */
  lemma {:induction false} FilterKeepsAll<T(!new)>(s: seq<T>, keep: T -> bool)
    requires forall i :: 0 <= i < |s| ==> keep(s[i])
    ensures Filter(s, keep) == s
  {
    if s != [] {
      FilterKeepsAll(s[1..], keep);
    }
  }

  /** Two tests that agree everywhere filter alike. */
  lemma {:induction false} FilterAgrees<T(!new)>(s: seq<T>, a: T -> bool, b: T -> bool)
    requires forall x :: a(x) == b(x)
    ensures Filter(s, a) == Filter(s, b)
  {
    if s != [] {
      FilterAgrees(s[1..], a, b);
    }
  }

  /** A filter that accepts no element returns the empty sequence. */
  lemma {:induction false} FilterDropsAll<T(!new)>(s: seq<T>, keep: T -> bool)
    requires forall i :: 0 <= i < |s| ==> !keep(s[i])
    ensures Filter(s, keep) == []
  {
    if s != [] {
      FilterDropsAll(s[1..], keep);
    }
  }

  /** Filtering distributes over concatenation. */
  lemma {:induction false} FilterConcat<T(!new)>(a: seq<T>, b: seq<T>, keep: T -> bool)
    ensures Filter(a + b, keep) == Filter(a, keep) + Filter(b, keep)
  {
    if a == [] {
      assert a + b == b;
    } else {
      var head: seq<T> := if keep(a[0]) then [a[0]] else [];
      calc {
        Filter(a + b, keep);
      == { assert (a + b)[0] == a[0] && (a + b)[1..] == a[1..] + b; }
        head + Filter(a[1..] + b, keep);
      == { FilterConcat(a[1..], b, keep); }
        head + (Filter(a[1..], keep) + Filter(b, keep));
      ==
        (head + Filter(a[1..], keep)) + Filter(b, keep);
      }
    }
  }

  /** Filtering out the one rejected element of a sequence leaves the elements around it. */
  lemma FilterDropsOne<T(!new)>(before: seq<T>, x: T, after: seq<T>, keep: T -> bool)
    requires forall j :: 0 <= j < |before| ==> keep(before[j])
    requires !keep(x)
    requires forall j :: 0 <= j < |after| ==> keep(after[j])
    ensures Filter(before + [x] + after, keep) == before + after
  {
    FilterKeepsAll(before, keep);
    FilterDropsAll([x], keep);
    FilterConcat(before, [x], keep);
    var head := Filter(before + [x], keep);
    assert head == before + [] == before;
    FilterKeepsAll(after, keep);
    FilterConcat(before + [x], after, keep);
  }
}
