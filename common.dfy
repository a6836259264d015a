/** Vocabulary shared by every controller of the moving-service backend: optional values,
    handler replies and their failure reasons, request parameters as they arrive over HTTP,
    and the query primitives of the persistence layer (selection in id order, counting,
    skip/take windows, page counts, substring matching). */
module Common {

  /** Record ids. The store hands them out in ascending order, so id order is creation order. */
  type Id = nat

  datatype Option<+T> = None | Some(value: T)

  /** Why a handler refused a request: one reason per distinct check of the source. */
  datatype Why =
    | Unauthorized             // no access token in the Authorization header
    | UserNotFound             // no account with the token's e-mail
    | NotCustomer              // the account has no Customer profile
    | NotMover                 // the account has no Mover profile
    | CustomerOnly             // the account's userType is not CUSTOMER
    | MoverOnly                // the account's userType is not MOVER
    | Missing(field: string)   // a required field is absent or falsy
    | Invalid(field: string)   // a value outside its enumeration or whitelist, or malformed
    | NotNumeric               // page or size does not convert to a number
    | NotArray(field: string)  // a list parameter that is not an array
    | NotFound(entity: string) // a referenced record does not exist
    | AlreadyOpen              // the customer already has an open moving request
    | NoOpenRequest            // the customer has no open moving request
    | AlreadyConfirmed         // the request or the estimate is already confirmed
    | AlreadyDone              // the request is confirmed and done
    | NotConfirmed             // the estimate is not confirmed
    | EstimateLimit            // five estimates already
    | DesignatedLimit          // three designated requests already
    | AlreadyReviewed          // a review for (estimate, customer) exists
    | AlreadyFavorite          // a favorite for (customer, mover) exists
    | PastDate                 // the moving date lies before now
    | NoServiceableArea        // the mover registered no serviceable area
    | NoEstimates              // the estimate listing came back empty
    | PasswordMismatch
    | TokenMismatch
    | ServerError              // an exception: caught at the handler boundary, or unhandled

  /** What a handler answers: its result, or the reason of the first check that failed. */
  datatype Reply<+T> = Ok(value: T) | Fail(why: Why)

  /** A paginated listing: the total count, the requested page, the page count and the rows. */
  datatype Page<+T> = Page(totalElement: nat, currentPage: int, totalPages: Option<int>, rows: seq<T>)

  /** The three kinds of move. */
  datatype MovingType = SMALL | HOME | OFFICE

  function TypeName(t: MovingType): string
  {
    match t
    case SMALL => "SMALL"
    case HOME => "HOME"
    case OFFICE => "OFFICE"
  }

  /** The whitelist check `["SMALL", "HOME", "OFFICE"].includes(s)`, returning the tag. */
  function ParseMovingType(s: string): (r: Option<MovingType>)
    ensures r.Some? <==> s == "SMALL" || s == "HOME" || s == "OFFICE"
    ensures r.Some? ==> TypeName(r.value) == s
  {
    if s == "SMALL" then Some(SMALL)
    else if s == "HOME" then Some(HOME)
    else if s == "OFFICE" then Some(OFFICE)
    else None
  }

  lemma ParseTypeName(t: MovingType)
    ensures ParseMovingType(TypeName(t)) == Some(t)
  {
  }

  /** A string field of a request body or query is given when it is present and not "". */
  predicate Given(s: Option<string>)
  {
    s.Some? && s.value != ""
  }

  /** A number field is given when it is present and not 0 (JavaScript truthiness). */
  predicate GivenNum(n: Option<int>)
  {
    n.Some? && n.value != 0
  }

  /** A numeric query parameter: absent, or a string whose unary `+` is a number or NaN. */
  datatype QueryNum = Unset | Num(n: int) | NotANumber

  /** The value `+q` takes after the handler's default for an absent parameter; None is NaN. */
  function Numeric(q: QueryNum, default: int): (r: Option<int>)
    ensures r.None? <==> q.NotANumber?
    ensures q.Unset? ==> r == Some(default)
    ensures q.Num? ==> r == Some(q.n)
  {
    match q
    case Unset => Some(default)
    case Num(n) => Some(n)
    case NotANumber => None
  }

  /** A list parameter of a request: absent (undefined or null), an array of strings, or some
      other JSON value that is truthy or falsy. */
  datatype ListInput = Absent | Items(items: seq<string>) | Scalar(truthy: bool)

  predicate Increasing(ids: seq<Id>)
  {
    forall i, j :: 0 <= i < j < |ids| ==> ids[i] < ids[j]
  }

  /** The ids below `n` of the rows of `m` that satisfy `p`, in ascending order:
      a `findMany` with a `where` filter and no explicit ordering. */
  function Select<T>(m: map<Id, T>, n: nat, p: T -> bool): (ids: seq<Id>)
    ensures forall i :: 0 <= i < |ids| ==> ids[i] < n && ids[i] in m && p(m[ids[i]])
    ensures forall k: Id :: k < n && k in m && p(m[k]) ==> k in ids
    ensures Increasing(ids)
    decreases n
  {
    if n == 0 then []
    else
      var before := Select(m, n - 1, p);
      if n - 1 in m && p(m[n - 1]) then before + [n - 1] else before
  }

  /** A table's ids as a table of their own, so a filter can look at the id of a row and at other
      tables: the primary key of a `findMany` over a table whose rows do not carry it. */
  function IdTable<T>(m: map<Id, T>): (r: map<Id, Id>)
    ensures r.Keys == m.Keys
    ensures forall k :: k in r ==> r[k] == k
  {
    map k | k in m :: k
  }

  /** The first (least) id below `n` whose row satisfies `p`: a `findFirst`. */
  function FirstKey<T>(m: map<Id, T>, n: nat, p: T -> bool): (r: Option<Id>)
    ensures r.Some? ==> r.value < n && r.value in m && p(m[r.value])
    ensures r.Some? ==> forall k: Id :: k < r.value && k in m ==> !p(m[k])
    ensures r.None? <==> forall k: Id :: k < n && k in m ==> !p(m[k])
  {
    var ids := Select(m, n, p);
    if |ids| == 0 then None
    else
      assert forall k: Id :: k < ids[0] && k in m && p(m[k]) ==> k in ids;
      Some(ids[0])
  }

  /** The number of rows below `n` that satisfy `p`: a `count` with the same filter. */
  function CountWhere<T>(m: map<Id, T>, n: nat, p: T -> bool): (c: nat)
    ensures c <= n
    decreases n
  {
    if n == 0 then 0
    else CountWhere(m, n - 1, p) + (if n - 1 in m && p(m[n - 1]) then 1 else 0)
  }

  /** A count and a findMany with the same filter agree: the count is the number of rows. */
  lemma {:induction false} CountIsSelectLength<T>(m: map<Id, T>, n: nat, p: T -> bool)
    ensures CountWhere(m, n, p) == |Select(m, n, p)|
  {
    if n > 0 {
      CountIsSelectLength(m, n - 1, p);
    }
  }

  /** The ids below `n` of the rows that satisfy `p`, as a set. */
  function KeysWhere<T>(m: map<Id, T>, n: nat, p: T -> bool): set<Id>
  {
    set k: Id | k in m && k < n && p(m[k])
  }

  /** The count is the number of distinct matching rows below `n`. */
  lemma {:induction false} CountIsCard<T>(m: map<Id, T>, n: nat, p: T -> bool)
    ensures CountWhere(m, n, p) == |KeysWhere(m, n, p)|
  {
    if n > 0 {
      CountIsCard(m, n - 1, p);
      if n - 1 in m && p(m[n - 1]) {
        assert KeysWhere(m, n, p) == KeysWhere(m, n - 1, p) + {n - 1};
      } else {
        assert KeysWhere(m, n, p) == KeysWhere(m, n - 1, p);
      }
    }
  }

  /** Two tables with the same ids of matching rows below `n` give the same selection. */
  lemma {:induction false} SelectAgree<T>(m1: map<Id, T>, m2: map<Id, T>, n: nat, p: T -> bool)
    requires forall k: Id :: k < n ==> ((k in m1 && p(m1[k])) <==> (k in m2 && p(m2[k])))
    ensures Select(m1, n, p) == Select(m2, n, p)
  {
    if n > 0 {
      SelectAgree(m1, m2, n - 1, p);
    }
  }

  function Min(a: int, b: int): int { if a <= b then a else b }

  function Max(a: int, b: int): int { if a >= b then a else b }

  function Abs(x: int): nat { if x >= 0 then x else -x }

  /** The position in `s` (of length `len`) where a window starts: `skip` for a non-negative
      `take`; for a negative one, the rows are counted from the end. */
  function WindowStart(len: nat, skip: int, take: int): int
  {
    if take >= 0 then skip else Max(len - skip + take, 0)
  }

  /** Prisma's `skip`/`take` on an ordered result. A negative skip is rejected. A negative `take`
      reads the list from its end: it skips `skip` rows from the end, keeps the `-take` rows
      before them, and gives them back in the list's order. */
  function Window<T>(s: seq<T>, skip: int, take: int): (r: Option<seq<T>>)
    ensures r.Some? <==> skip >= 0
    ensures r.Some? ==> |r.value| == Min(Abs(take), Max(|s| - skip, 0))
    ensures r.Some? ==> forall i :: 0 <= i < |r.value| ==>
      0 <= WindowStart(|s|, skip, take) + i < |s| && r.value[i] == s[WindowStart(|s|, skip, take) + i]
  {
    if skip < 0 then None
    else if skip >= |s| then Some([])
    else if take >= 0 then
      assert WindowStart(|s|, skip, take) == skip;
      Some(s[skip..Min(|s|, skip + take)])
    else
      assert WindowStart(|s|, skip, take) == Max(|s| - skip + take, 0);
      Some(s[Max(|s| - skip + take, 0)..|s| - skip])
  }

  /** A negative `take` is a positive one on the reversed list, reversed back. */
  lemma NegativeTakeFromEnd<T>(s: seq<T>, skip: int, take: int)
    requires skip >= 0 && take < 0
    ensures Window(s, skip, take).value == Reverse(Window(Reverse(s), skip, -take).value)
  {
    var a := Window(s, skip, take).value;
    var b := Reverse(Window(Reverse(s), skip, -take).value);
    var w := Window(Reverse(s), skip, -take).value;
    assert |a| == |b|;
    forall i | 0 <= i < |a|
      ensures a[i] == b[i]
    {
      assert b[i] == w[|w| - 1 - i];
      assert w[|w| - 1 - i] == Reverse(s)[skip + |w| - 1 - i];
    }
  }

  /** Every element of a window is an element of the sequence it was cut from. */
  lemma WindowWithin<T>(s: seq<T>, skip: int, take: int)
    requires skip >= 0
    ensures forall x :: x in Window(s, skip, take).value ==> x in s
  {
    var w := Window(s, skip, take).value;
    forall x | x in w
      ensures x in s
    {
      var i :| 0 <= i < |w| && w[i] == x;
      assert x == s[WindowStart(|s|, skip, take) + i];
    }
  }

  /** A first page at least as long as the list is the whole list. */
  lemma WindowAll<T>(s: seq<T>, take: int)
    requires take >= |s|
    ensures Window(s, 0, take) == Some(s)
  {
    if |s| > 0 {
      assert s[0..Min(|s|, take)] == s;
    }
  }

  /** A first page at least as long as the count of matching rows holds every one of them. */
  lemma FirstPageComplete<T>(m: map<Id, T>, n: nat, p: T -> bool, take: int, k: Id)
    requires k < n && k in m && p(m[k])
    requires take >= CountWhere(m, n, p)
    ensures Window(Select(m, n, p), 0, take) == Some(Select(m, n, p))
    ensures k in Window(Select(m, n, p), 0, take).value
  {
    CountIsSelectLength(m, n, p);
    WindowAll(Select(m, n, p), take);
  }

  /** A window of a list in id order is in id order. */
  lemma WindowIncreasing(s: seq<Id>, skip: int, take: int)
    requires Increasing(s) && skip >= 0
    ensures Increasing(Window(s, skip, take).value)
  {
    var w := Window(s, skip, take).value;
    var st := WindowStart(|s|, skip, take);
    forall i, j | 0 <= i < j < |w|
      ensures w[i] < w[j]
    {
      assert w[i] == s[st + i] && w[j] == s[st + j];
    }
  }

  /** `Math.ceil(total / size)`; a zero size gives NaN or Infinity, which JSON renders as null. */
  function PageCount(total: nat, size: int): (r: Option<int>)
    ensures r.None? <==> size == 0
    ensures size > 0 ==> r.Some? && 0 <= r.value && total <= r.value * size
    ensures size > 0 ==> r.Some? && (r.value - 1) * size < total
    ensures size < 0 ==> r.Some? && r.value <= 0
  {
    if size == 0 then None
    else if size > 0 then
      var q := (total + size - 1) / size;
      CeilBounds(total, size, q);
      Some(q)
    else Some(-(total / -size))
  }

  lemma CeilBounds(total: nat, size: int, q: int)
    requires size > 0 && q == (total + size - 1) / size
    ensures 0 <= q && total <= q * size && (q - 1) * size < total
  {
    var r := (total + size - 1) % size;
    assert total + size - 1 == q * size + r && 0 <= r < size;
    assert (q - 1) * size == q * size - size;
  }

  /** `sub` occurs in `s` starting at position `i`. */
  predicate OccursAt(s: string, sub: string, i: int)
  {
    0 <= i <= |s| - |sub| && s[i..i + |sub|] == sub
  }

  /** Prisma's `contains`: `sub` occurs in `s` as a contiguous piece. */
  predicate Contains(s: string, sub: string)
  {
    exists i :: 0 <= i <= |s| - |sub| && OccursAt(s, sub, i)
  }

  /** The default filter "" matches every name. */
  lemma ContainsEmpty(s: string)
    ensures Contains(s, "")
  {
    assert OccursAt(s, "", 0);
  }

  /** Every name contains itself. */
  lemma ContainsSelf(s: string)
    ensures Contains(s, s)
  {
    assert OccursAt(s, s, 0);
  }

  function Reverse<T>(s: seq<T>): (r: seq<T>)
    ensures |r| == |s|
    ensures forall i :: 0 <= i < |s| ==> r[i] == s[|s| - 1 - i]
  {
    if s == [] then [] else Reverse(s[1..]) + [s[0]]
  }
}
