/**
 The invoice list: which rows a filter selects, in what order, cut into which
 pages, and what each item shows. The database's collation is a parameter: any
 strict weak order on strings.
 */
module Listing {
  import opened Finite
  import opened Text
  import opened Invoices
  import opened Store
  import P = Protocol
  import G = Guarantees

  /** An invoices row with the columns only the list reads. */
  datatype Listed = Listed(id: Uuid, row: InvoiceRow, createdAt: Time, deleted: bool)

  datatype StatusFilter = AnyStatus | Only(status: Status) | Unrecognised

  datatype Filter = Filter(
    status: StatusFilter, customerId: Option<Uuid>, search: string,
    issueFrom: Option<Time>, issueTo: Option<Time>, dueFrom: Option<Time>, dueTo: Option<Time>,
    sort: string, order: string, limit: nat, offset: nat)

  // ---- Search ------------------------------------------------------------

  /** Whole-text match of a LIKE pattern, letters of either case alike. */
  predicate ILike(t: string, p: string)
    decreases |t| + |p|
  {
    if p == [] then t == []
    else if p[0] == '%' then ILike(t, p[1..]) || (t != [] && ILike(t[1..], p))
    else if t == [] then false
    else if p[0] == '_' then ILike(t[1..], p[1..])
    else if p[0] == '\\' then |p| > 1 && UpperChar(t[0]) == UpperChar(p[1]) && ILike(t[1..], p[2..])
    else UpperChar(t[0]) == UpperChar(p[0]) && ILike(t[1..], p[1..])
  }

  predicate Plain(s: string) { '%' !in s && '_' !in s && '\\' !in s }

  predicate OccursAt(t: string, s: string, i: nat) {
    i + |s| <= |t| && Upper(t[i..i + |s|]) == Upper(s)
  }

  lemma {:induction false} PercentMatchesAll(t: string)
    ensures ILike(t, "%")
  {
    if t != [] { PercentMatchesAll(t[1..]); } else { assert "%"[1..] == ""; }
  }

  lemma UpperStep(a: string, b: string)
    requires a != [] && b != []
    ensures Upper(a) == Upper(b) <==> UpperChar(a[0]) == UpperChar(b[0]) && Upper(a[1..]) == Upper(b[1..])
  {
    assert Upper(a)[0] == UpperChar(a[0]) && Upper(a)[1..] == Upper(a[1..]);
    assert Upper(b)[0] == UpperChar(b[0]) && Upper(b)[1..] == Upper(b[1..]);
  }

  lemma {:induction false} PrefixMatches(t: string, s: string)
    requires Plain(s)
    ensures ILike(t, s + "%") <==> OccursAt(t, s, 0)
    decreases |s|
  {
    if s == [] {
      assert s + "%" == "%" && t[0..0] == [];
      PercentMatchesAll(t);
    } else {
      assert (s + "%")[0] == s[0] && (s + "%")[1..] == s[1..] + "%" && s[0] in s;
      if t != [] {
        PrefixMatches(t[1..], s[1..]);
        if |s| <= |t| {
          assert t[0..|s|][1..] == t[1..][0..|s| - 1];
          UpperStep(t[0..|s|], s);
        }
      }
    }
  }

  /** A search text without wildcards matches exactly the numbers that contain
      it, whatever the case. */
  lemma {:induction false} PlainSearchIsContainment(t: string, s: string)
    requires Plain(s)
    ensures ILike(t, "%" + s + "%") <==> exists i: nat :: OccursAt(t, s, i)
    decreases |t|
  {
    var p := "%" + s + "%";
    assert p[1..] == s + "%";
    PrefixMatches(t, s);
    if t == [] {
      assert forall i: nat :: OccursAt(t, s, i) ==> i == 0;
    } else {
      PlainSearchIsContainment(t[1..], s);
      forall i: nat ensures OccursAt(t[1..], s, i) <==> OccursAt(t, s, i + 1) {
        if i + 1 + |s| <= |t| { assert t[1..][i..i + |s|] == t[i + 1..i + 1 + |s|]; }
      }
      if i: nat :| OccursAt(t, s, i) {
        if i > 0 { assert OccursAt(t[1..], s, i - 1); }
      }
    }
  }

  /** An underscore stands for any one character, and a backslash takes the
      next one literally. */
  lemma WildcardsMatch(t: string, c: char)
    ensures ILike(t, "_") <==> |t| == 1
    ensures ILike(t, ['\\', c]) <==> |t| == 1 && Upper(t) == Upper([c])
  {
    if t != [] {
      UpperStep([t[0]], [c]);
      if |t| == 1 { assert t == [t[0]]; }
      assert "_"[1..] == "" && ['\\', c][2..] == [];
    }
  }

  // ---- The WHERE clause --------------------------------------------------

  predicate StatusClause(f: StatusFilter, row: InvoiceRow, today: Time) {
    match f
    case AnyStatus => true
    case Unrecognised => true
    case Only(status) =>
      match status
      case Sent => row.status == Sent && row.dueDate >= today
      case Overdue => row.status == Sent && row.dueDate < today
      case _ => row.status == status
  }

  predicate AtLeast(bound: Option<Time>, t: Time) { bound.Some? ==> t >= bound.value }

  predicate AtMost(bound: Option<Time>, t: Time) { bound.Some? ==> t <= bound.value }

  /** The rows a filter is meant to select. */
  predicate Selected(x: Listed, org: Uuid, f: Filter, today: Time) {
    && x.row.organisationId == org && !x.deleted
    && StatusClause(f.status, x.row, today)
    && (f.customerId.Some? ==> x.row.customerId == f.customerId.value)
    && (f.search != "" ==> ILike(x.row.invoiceNumber, "%" + f.search + "%"))
    && AtLeast(f.issueFrom, x.row.issueDate) && AtMost(f.issueTo, x.row.issueDate)
    && AtLeast(f.dueFrom, x.row.dueDate) && AtMost(f.dueTo, x.row.dueDate)
  }

  datatype Arg = IdArg(id: Uuid) | TimeArg(t: Time) | TextArg(text: string)

  /** One condition of the query; n is its placeholder $n. */
  datatype Condition =
    | OrganisationIs(n: nat)
    | NotDeleted
    | StatusIs(status: Status)
    | CustomerIs(n: nat)
    | NumberLike(n: nat)
    | IssuedFrom(n: nat)
    | IssuedTo(n: nat)
    | DueFrom(n: nat)
    | DueTo(n: nat)
    | SentAndDueFrom(n: nat)
    | SentAndDueBefore(n: nat)

  datatype Query = Query(conditions: seq<Condition>, args: seq<Arg>)

  predicate TimeHolds(args: seq<Arg>, n: nat, test: Time -> bool) {
    1 <= n <= |args| && args[n - 1].TimeArg? && test(args[n - 1].t)
  }

  predicate IdHolds(args: seq<Arg>, n: nat, id: Uuid) {
    1 <= n <= |args| && args[n - 1] == IdArg(id)
  }

  /** What the database makes of a condition. */
  predicate Holds(c: Condition, args: seq<Arg>, x: Listed) {
    match c
    case OrganisationIs(n) => IdHolds(args, n, x.row.organisationId)
    case NotDeleted => !x.deleted
    case StatusIs(status) => x.row.status == status
    case CustomerIs(n) => IdHolds(args, n, x.row.customerId)
    case NumberLike(n) =>
      1 <= n <= |args| && args[n - 1].TextArg? && ILike(x.row.invoiceNumber, args[n - 1].text)
    case IssuedFrom(n) => TimeHolds(args, n, t => x.row.issueDate >= t)
    case IssuedTo(n) => TimeHolds(args, n, t => x.row.issueDate <= t)
    case DueFrom(n) => TimeHolds(args, n, t => x.row.dueDate >= t)
    case DueTo(n) => TimeHolds(args, n, t => x.row.dueDate <= t)
    case SentAndDueFrom(n) => x.row.status == Sent && TimeHolds(args, n, t => x.row.dueDate >= t)
    case SentAndDueBefore(n) => x.row.status == Sent && TimeHolds(args, n, t => x.row.dueDate < t)
  }

  predicate AllHold(q: Query, x: Listed) {
    forall i :: 0 <= i < |q.conditions| ==> Holds(q.conditions[i], q.args, x)
  }

  predicate Numbered(q: Query) {
    forall i :: 0 <= i < |q.conditions| ==> Placeholder(q.conditions[i]) <= |q.args|
  }

  function Placeholder(c: Condition): nat {
    match c
    case NotDeleted => 0
    case StatusIs(_) => 0
    case _ => c.n
  }

  /** A new argument leaves what earlier conditions say unchanged. */
  lemma Push(q: Query, more: seq<Arg>, c: Condition)
    requires Numbered(q) && Placeholder(c) <= |q.args + more|
    ensures var q' := Query(q.conditions + [c], q.args + more);
            Numbered(q') && forall x :: AllHold(q', x) <==> AllHold(q, x) && Holds(c, q'.args, x)
  {
    var q' := Query(q.conditions + [c], q.args + more);
    forall x ensures AllHold(q', x) <==> AllHold(q, x) && Holds(c, q'.args, x) {
      forall i | 0 <= i < |q.conditions|
        ensures Holds(q'.conditions[i], q'.args, x) == Holds(q.conditions[i], q.args, x)
      {
        assert Placeholder(q.conditions[i]) <= |q.args|;
      }
      if AllHold(q', x) {
        forall i | 0 <= i < |q.conditions| ensures Holds(q.conditions[i], q.args, x) {
          assert Holds(q'.conditions[i], q'.args, x);
        }
        assert q'.conditions[|q.conditions|] == c;
      }
    }
  }

  /** List's query: conditions and arguments appended one after the other. */
  method BuildWhere(org: Uuid, f: Filter, today: Time) returns (q: Query)
    ensures Numbered(q)
    ensures forall x :: AllHold(q, x) <==> Selected(x, org, f, today)
  {
    q := Query([], []);
    q := Append(q, [IdArg(org)], OrganisationIs(1));
    q := Append(q, [], NotDeleted);
    ghost var q1 := q;
    q := AddStatus(q, f.status, today);
    ghost var q2 := q;
    if f.customerId.Some? { q := Append(q, [IdArg(f.customerId.value)], CustomerIs(|q.args| + 1)); }
    ghost var q3 := q;
    if f.search != "" { q := Append(q, [TextArg("%" + f.search + "%")], NumberLike(|q.args| + 1)); }
    ghost var q4 := q;
    q := AddDate(q, f.issueFrom, IssuedFrom(|q.args| + 1));
    q := AddDate(q, f.issueTo, IssuedTo(|q.args| + 1));
    ghost var q5 := q;
    q := AddDate(q, f.dueFrom, DueFrom(|q.args| + 1));
    q := AddDate(q, f.dueTo, DueTo(|q.args| + 1));
    forall x ensures AllHold(q, x) <==> Selected(x, org, f, today) {
      assert AllHold(q1, x) <==> x.row.organisationId == org && !x.deleted;
      assert AllHold(q2, x) <==> AllHold(q1, x) && StatusClause(f.status, x.row, today);
      assert AllHold(q3, x) <==> AllHold(q2, x) && (f.customerId.Some? ==> x.row.customerId == f.customerId.value);
      assert AllHold(q4, x) <==>
        AllHold(q3, x) && (f.search != "" ==> ILike(x.row.invoiceNumber, "%" + f.search + "%"));
    }
  }

  method Append(q: Query, more: seq<Arg>, c: Condition) returns (q': Query)
    requires Numbered(q) && Placeholder(c) <= |q.args + more|
    ensures q' == Query(q.conditions + [c], q.args + more) && Numbered(q')
    ensures forall x :: AllHold(q', x) <==> AllHold(q, x) && Holds(c, q'.args, x)
  {
    Push(q, more, c);
    q' := Query(q.conditions + [c], q.args + more);
  }

  method AddStatus(q0: Query, f: StatusFilter, today: Time) returns (q: Query)
    requires Numbered(q0)
    ensures Numbered(q)
    ensures forall x :: AllHold(q, x) <==> AllHold(q0, x) && StatusClause(f, x.row, today)
  {
    q := q0;
    match f
    case Only(Draft) => q := Append(q, [], StatusIs(Draft));
    case Only(Paid) => q := Append(q, [], StatusIs(Paid));
    case Only(Cancelled) => q := Append(q, [], StatusIs(Cancelled));
    case Only(Sent) => q := Append(q, [TimeArg(today)], SentAndDueFrom(|q.args| + 1));
    case Only(Overdue) => q := Append(q, [TimeArg(today)], SentAndDueBefore(|q.args| + 1));
    case _ =>
  }

  /** What a date condition compares, for a bound t. */
  predicate DateTest(c: Condition, x: Listed, t: Time)
    requires c.IssuedFrom? || c.IssuedTo? || c.DueFrom? || c.DueTo?
  {
    match c
    case IssuedFrom(_) => x.row.issueDate >= t
    case IssuedTo(_) => x.row.issueDate <= t
    case DueFrom(_) => x.row.dueDate >= t
    case DueTo(_) => x.row.dueDate <= t
  }

  method AddDate(q0: Query, bound: Option<Time>, c: Condition) returns (q: Query)
    requires c.IssuedFrom? || c.IssuedTo? || c.DueFrom? || c.DueTo?
    requires Numbered(q0) && Placeholder(c) == |q0.args| + 1
    ensures Numbered(q)
    ensures forall x :: AllHold(q, x) <==> AllHold(q0, x) && (bound.Some? ==> DateTest(c, x, bound.value))
  {
    q := q0;
    if bound.Some? { q := Append(q, [TimeArg(bound.value)], c); }
  }

  /** The filter in SQL and the status in Go agree on a row exactly when the
      row is not stored as Overdue, or another filter is asked for. */
  lemma FilterIsEffectiveStatus(f: Status, row: InvoiceRow, now: Time)
    ensures (StatusClause(Only(f), row, UtcDate(now)) <==> EffectiveStatus(row.status, row.dueDate, now) == f)
       <==> !(f == Overdue && row.status == Overdue)
  {
  }

  /** No run of the money path stores Overdue: of the five filters exactly one
      selects any invoice, and it is the status the item shows. */
  lemma FiltersPartition(s: P.Sys, actions: seq<P.Action>, id: Uuid, now: Time)
    requires P.Inv(s) && id in P.Run(s, actions).db.invoices
    ensures var row := P.Run(s, actions).db.invoices[id];
            forall f :: StatusClause(Only(f), row, UtcDate(now)) <==> f == EffectiveStatus(row.status, row.dueDate, now)
  {
    G.BooksBalance(s, actions, id);
  }

  // ---- Order -------------------------------------------------------------

  datatype SortColumn = ByNumber | ByIssueDate | ByDueDate | ByTotal | ByCreated

  function ColumnOf(sort: string): SortColumn {
    if sort == "invoiceNumber" then ByNumber
    else if sort == "dueDate" then ByDueDate
    else if sort == "total" then ByTotal
    else if sort == "createdAt" then ByCreated
    else ByIssueDate
  }

  predicate Ascending(order: string) { Upper(order) == "ASC" }

  type Collation = (string, string) -> bool

  /** Strict, transitive, and ties form classes. */
  ghost predicate IsCollation(less: Collation) {
    && (forall a :: !less(a, a))
    && (forall a, b, c :: less(a, b) && less(b, c) ==> less(a, c))
    && (forall a, b, c :: less(a, c) ==> less(a, b) || less(b, c))
  }

  predicate Less(col: SortColumn, less: Collation, a: Listed, b: Listed) {
    match col
    case ByNumber => less(a.row.invoiceNumber, b.row.invoiceNumber)
    case ByIssueDate => a.row.issueDate < b.row.issueDate
    case ByDueDate => a.row.dueDate < b.row.dueDate
    case ByTotal => a.row.total < b.row.total
    case ByCreated => a.createdAt < b.createdAt
  }

  /** ORDER BY column direction, id ASC. */
  predicate Precedes(col: SortColumn, asc: bool, less: Collation, a: Listed, b: Listed) {
    var lt, gt := Less(col, less, a, b), Less(col, less, b, a);
    (if asc then lt else gt) || (!lt && !gt && a.id < b.id)
  }

  ghost predicate UniqueIds(rows: set<Listed>) {
    forall x, y :: x in rows && y in rows && x.id == y.id ==> x == y
  }

  /** What an ORDER BY leaves to the database: any sequence of exactly these
      rows in which each precedes the later ones. */
  ghost predicate IsListing(list: seq<Listed>, rows: set<Listed>, col: SortColumn, asc: bool, less: Collation) {
    && (forall x :: x in list <==> x in rows)
    && forall i, j :: 0 <= i < j < |list| ==> Precedes(col, asc, less, list[i], list[j])
  }

  lemma PrecedesIsStrict(col: SortColumn, asc: bool, less: Collation, a: Listed, b: Listed, c: Listed)
    requires IsCollation(less)
    ensures !Precedes(col, asc, less, a, a)
    ensures Precedes(col, asc, less, a, b) && Precedes(col, asc, less, b, c) ==> Precedes(col, asc, less, a, c)
    ensures a.id != b.id ==> Precedes(col, asc, less, a, b) || Precedes(col, asc, less, b, a)
  {
    LessIsStrict(col, less, a, b, c);
    LessIsStrict(col, less, c, b, a);
  }

  lemma LessIsStrict(col: SortColumn, less: Collation, a: Listed, b: Listed, c: Listed)
    requires IsCollation(less)
    ensures !Less(col, less, a, a) && !Less(col, less, b, b)
    ensures !(Less(col, less, a, b) && Less(col, less, b, a))
    ensures Less(col, less, a, b) && Less(col, less, b, c) ==> Less(col, less, a, c)
    ensures Less(col, less, a, c) ==> Less(col, less, a, b) || Less(col, less, b, c)
  {
  }

  /** The order leaves no choice: the same rows always list the same way. */
  lemma {:induction false} ListingIsUnique(a: seq<Listed>, b: seq<Listed>, rows: set<Listed>,
                                           col: SortColumn, asc: bool, less: Collation)
    requires IsCollation(less)
    requires IsListing(a, rows, col, asc, less) && IsListing(b, rows, col, asc, less)
    ensures a == b
    decreases |a|
  {
    if a == [] || b == [] {
      CountIsLength(a, rows, col, asc, less);
      CountIsLength(b, rows, col, asc, less);
    } else {
      FirstIsLeast(a, b, rows, col, asc, less);
      RestIsListing(a, rows, col, asc, less);
      RestIsListing(b, rows, col, asc, less);
      ListingIsUnique(a[1..], b[1..], rows - {a[0]}, col, asc, less);
      assert a == [a[0]] + a[1..] && b == [b[0]] + b[1..];
    }
  }

  lemma FirstIsLeast(a: seq<Listed>, b: seq<Listed>, rows: set<Listed>, col: SortColumn, asc: bool, less: Collation)
    requires IsCollation(less) && a != [] && b != []
    requires IsListing(a, rows, col, asc, less) && IsListing(b, rows, col, asc, less)
    ensures a[0] == b[0]
  {
    assert a[0] in rows && b[0] in rows;
    var j :| 0 <= j < |a| && a[j] == b[0];
    var k :| 0 <= k < |b| && b[k] == a[0];
    PrecedesIsStrict(col, asc, less, a[0], b[0], a[0]);
  }

  lemma RestIsListing(a: seq<Listed>, rows: set<Listed>, col: SortColumn, asc: bool, less: Collation)
    requires IsCollation(less) && a != [] && IsListing(a, rows, col, asc, less)
    ensures IsListing(a[1..], rows - {a[0]}, col, asc, less)
  {
    PrecedesIsStrict(col, asc, less, a[0], a[0], a[0]);
    forall x ensures x in a[1..] <==> x in rows - {a[0]} {
      if x in a[1..] {
        var i :| 0 <= i < |a[1..]| && a[1..][i] == x;
        assert a[i + 1] == x && x in a;
      }
      if x in rows && x != a[0] {
        var i :| 0 <= i < |a| && a[i] == x;
        assert a[1..][i - 1] == x;
      }
    }
  }

  /** COUNT(*) counts the rows of the listing. */
  lemma {:induction false} CountIsLength(a: seq<Listed>, rows: set<Listed>, col: SortColumn, asc: bool, less: Collation)
    requires IsCollation(less) && IsListing(a, rows, col, asc, less)
    ensures |a| == |rows|
    decreases |a|
  {
    if a == [] {
      assert forall x :: x in rows ==> x in a;
      assert rows == {};
    } else {
      assert a[0] in rows;
      RestIsListing(a, rows, col, asc, less);
      CountIsLength(a[1..], rows - {a[0]}, col, asc, less);
    }
  }

  /** A row's place among rows already in order. */
  function Insert(x: Listed, list: seq<Listed>, col: SortColumn, asc: bool, less: Collation): seq<Listed> {
    if list == [] then [x]
    else if Precedes(col, asc, less, x, list[0]) then [x] + list
    else [list[0]] + Insert(x, list[1..], col, asc, less)
  }

  lemma {:induction false} InsertIsListing(x: Listed, list: seq<Listed>, rows: set<Listed>,
                                           col: SortColumn, asc: bool, less: Collation)
    requires IsCollation(less) && IsListing(list, rows, col, asc, less)
    requires forall y :: y in rows ==> y.id != x.id
    ensures IsListing(Insert(x, list, col, asc, less), rows + {x}, col, asc, less)
    decreases |list|
  {
    var l' := Insert(x, list, col, asc, less);
    if list != [] {
      var first := list[0];
      assert first in rows && list == [first] + list[1..];
      PrecedesIsStrict(col, asc, less, x, first, x);
      if Precedes(col, asc, less, x, first) {
        forall j | 0 <= j < |list| ensures Precedes(col, asc, less, x, list[j]) {
          PrecedesIsStrict(col, asc, less, x, first, list[j]);
        }
      } else {
        RestIsListing(list, rows, col, asc, less);
        InsertIsListing(x, list[1..], rows - {first}, col, asc, less);
        var rest := Insert(x, list[1..], col, asc, less);
        forall j | 0 <= j < |rest| ensures Precedes(col, asc, less, first, rest[j]) {
          assert rest[j] in rows - {first} + {x};
          if rest[j] != x { var k :| 0 <= k < |list| && list[k] == rest[j]; }
        }
        forall y ensures y in l' <==> y in rows + {x} { assert y in rest <==> y in rows - {first} + {x}; }
      }
    }
  }

  /** There always is a listing. */
  lemma {:induction false} ListingExists(rows: set<Listed>, col: SortColumn, asc: bool, less: Collation)
    requires IsCollation(less) && UniqueIds(rows)
    ensures exists list :: IsListing(list, rows, col, asc, less)
    decreases |rows|
  {
    if rows == {} {
      assert IsListing([], rows, col, asc, less);
    } else {
      var x :| x in rows;
      ListingExists(rows - {x}, col, asc, less);
      var list :| IsListing(list, rows - {x}, col, asc, less);
      InsertIsListing(x, list, rows - {x}, col, asc, less);
      assert rows - {x} + {x} == rows;
    }
  }

  // ---- Pages -------------------------------------------------------------

  function Cut(n: nat, len: nat): nat { if n < len then n else len }

  /** LIMIT limit OFFSET offset. */
  function Page(list: seq<Listed>, limit: nat, offset: nat): seq<Listed> {
    list[Cut(offset, |list|)..Cut(offset + limit, |list|)]
  }

  /** A page as one query returns it: cut from some listing of the rows. */
  ghost predicate IsPage(page: seq<Listed>, rows: set<Listed>, col: SortColumn, asc: bool, less: Collation,
                         limit: nat, offset: nat) {
    exists list :: IsListing(list, rows, col, asc, less) && page == Page(list, limit, offset)
  }

  function Concat(pages: seq<seq<Listed>>): seq<Listed> {
    if pages == [] then [] else Concat(pages[..|pages| - 1]) + pages[|pages| - 1]
  }

  lemma NextOffset(n: nat, limit: nat)
    ensures (n + 1) * limit == n * limit + limit
  {
  }

  lemma CutsJoin(list: seq<Listed>, offset: nat, limit: nat)
    ensures list[..Cut(offset, |list|)] + Page(list, limit, offset) == list[..Cut(offset + limit, |list|)]
  {
  }

  /** Consecutive pages, each queried on its own, make up the front of the one
      listing, with no gap and no repeat. */
  lemma {:induction false} PagesTile(pages: seq<seq<Listed>>, list: seq<Listed>, rows: set<Listed>,
                                     col: SortColumn, asc: bool, less: Collation, limit: nat)
    requires IsCollation(less) && IsListing(list, rows, col, asc, less)
    requires forall i :: 0 <= i < |pages| ==> IsPage(pages[i], rows, col, asc, less, limit, i * limit)
    ensures Concat(pages) == list[..Cut(|pages| * limit, |list|)]
  {
    if pages != [] {
      var n := |pages| - 1;
      PagesTile(pages[..n], list, rows, col, asc, less, limit);
      var other :| IsListing(other, rows, col, asc, less) && pages[n] == Page(other, limit, n * limit);
      ListingIsUnique(other, list, rows, col, asc, less);
      NextOffset(n, limit);
      CutsJoin(list, n * limit, limit);
    }
  }

  /** Enough pages make up the whole listing. */
  lemma PagesMakeTheList(pages: seq<seq<Listed>>, list: seq<Listed>, rows: set<Listed>,
                         col: SortColumn, asc: bool, less: Collation, limit: nat)
    requires IsCollation(less) && IsListing(list, rows, col, asc, less)
    requires forall i :: 0 <= i < |pages| ==> IsPage(pages[i], rows, col, asc, less, limit, i * limit)
    requires |pages| * limit >= |rows|
    ensures Concat(pages) == list
  {
    PagesTile(pages, list, rows, col, asc, less, limit);
    CountIsLength(list, rows, col, asc, less);
    assert list[..|list|] == list;
  }

  function SelectedRows(table: set<Listed>, org: Uuid, f: Filter, today: Time): set<Listed> {
    set x | x in table && Selected(x, org, f, today)
  }

  /** Which of two rows the filter's sort column puts first. */
  predicate Smaller(f: Filter, less: Collation, a: Listed, b: Listed) {
    if f.sort == "invoiceNumber" then less(a.row.invoiceNumber, b.row.invoiceNumber)
    else if f.sort == "dueDate" then a.row.dueDate < b.row.dueDate
    else if f.sort == "total" then a.row.total < b.row.total
    else if f.sort == "createdAt" then a.createdAt < b.createdAt
    else a.row.issueDate < b.row.issueDate
  }

  /** "asc", in any case. */
  predicate AscAsked(order: string) {
    |order| == 3 && order[0] in "aA" && order[1] in "sS" && order[2] in "cC"
  }

  /** The order a filter asks for, newest issue date first unless it says
      otherwise, with the id between equals. */
  predicate SortedBefore(f: Filter, less: Collation, a: Listed, b: Listed) {
    if Smaller(f, less, a, b) then AscAsked(f.order) || Smaller(f, less, b, a)
    else if Smaller(f, less, b, a) then !AscAsked(f.order)
    else a.id < b.id
  }

  lemma OrderIs(f: Filter, less: Collation, a: Listed, b: Listed)
    ensures Precedes(ColumnOf(f.sort), Ascending(f.order), less, a, b) == SortedBefore(f, less, a, b)
  {
    AscIs(f.order);
  }

  lemma AscIs(order: string)
    ensures Ascending(order) == AscAsked(order)
  {
    UpperAt(order);
    UpperAt("ASC");
    if |order| == 3 {
      assert Upper(order) == [Upper(order)[0], Upper(order)[1], Upper(order)[2]];
    }
  }

  /** What the repository returns for a filter: a page and a count of all. */
  ghost predicate Answers(page: seq<Listed>, count: nat, table: set<Listed>, org: Uuid, f: Filter,
                          today: Time, less: Collation) {
    var rows := SelectedRows(table, org, f, today);
    IsPage(page, rows, ColumnOf(f.sort), Ascending(f.order), less, f.limit, f.offset) && count == |rows|
  }

  /** Paging through a filter until `count` rows have gone by shows exactly the
      selected rows, each once, in order. */
  lemma BrowsingShowsEachRowOnce(pages: seq<seq<Listed>>, count: nat, table: set<Listed>, org: Uuid, f: Filter,
                                 today: Time, less: Collation)
    requires IsCollation(less) && UniqueIds(table)
    requires forall i :: 0 <= i < |pages| ==>
               Answers(pages[i], count, table, org, f.(offset := i * f.limit), today, less)
    requires |pages| > 0 && |pages| * f.limit >= count
    ensures var all := Concat(pages);
            && |all| == count
            && (forall x :: x in all <==> x in table && Selected(x, org, f, today))
            && forall i, j :: 0 <= i < j < |all| ==> SortedBefore(f, less, all[i], all[j])
  {
    forall a, b ensures Precedes(ColumnOf(f.sort), Ascending(f.order), less, a, b) == SortedBefore(f, less, a, b) {
      OrderIs(f, less, a, b);
    }
    var rows, col, asc := SelectedRows(table, org, f, today), ColumnOf(f.sort), Ascending(f.order);
    ListingExists(rows, col, asc, less);
    var list :| IsListing(list, rows, col, asc, less);
    CountIsLength(list, rows, col, asc, less);
    forall i | 0 <= i < |pages|
      ensures IsPage(pages[i], rows, col, asc, less, f.limit, i * f.limit) && count == |rows|
    {
      SameSelection(table, org, f, i * f.limit, today);
      assert Answers(pages[i], count, table, org, f.(offset := i * f.limit), today, less);
    }
    assert IsPage(pages[0], rows, col, asc, less, f.limit, 0 * f.limit);
    PagesMakeTheList(pages, list, rows, col, asc, less, f.limit);
  }

  lemma SameSelection(table: set<Listed>, org: Uuid, f: Filter, offset: nat, today: Time)
    ensures SelectedRows(table, org, f.(offset := offset), today) == SelectedRows(table, org, f, today)
  {
    forall x ensures Selected(x, org, f.(offset := offset), today) == Selected(x, org, f, today) { }
  }

  // ---- Payment totals ----------------------------------------------------

  /** SUM(amount) GROUP BY invoice_id over the payments of some invoices: an
      invoice without payments has no group. */
  function GroupTotals(ps: seq<Payment>, invoices: set<Uuid>): map<Uuid, int> {
    if ps == [] then map[]
    else
      var p, m := ps[|ps| - 1], GroupTotals(ps[..|ps| - 1], invoices);
      if p.invoiceId !in invoices then m
      else m[p.invoiceId := p.amount + if p.invoiceId in m then m[p.invoiceId] else 0]
  }

  function TotalOf(totals: map<Uuid, int>, id: Uuid): int { if id in totals then totals[id] else 0 }

  /** Read with 0 for a missing group, the groups are the per-invoice sums. */
  lemma {:induction false} GroupsAreSums(ps: seq<Payment>, invoices: set<Uuid>, id: Uuid)
    ensures id in invoices ==> TotalOf(GroupTotals(ps, invoices), id) == SumPaid(ps, id)
    ensures id !in invoices ==> id !in GroupTotals(ps, invoices)
  {
    if ps != [] { GroupsAreSums(ps[..|ps| - 1], invoices, id); }
  }

  function VisibleIds(db: Db, org: Uuid, ids: seq<Uuid>): set<Uuid> {
    set id | id in ids && Visible(db, org, id)
  }

  /** Fills the map from the query's rows, in whatever order they come. */
  method GetTotalPaidByInvoiceIds(db: Db, org: Uuid, ids: seq<Uuid>) returns (totals: map<Uuid, int>)
    ensures totals == GroupTotals(db.payments, VisibleIds(db, org, ids))
    ensures forall id :: id in totals ==> id in ids && id in db.invoices && db.invoices[id].organisationId == org
    ensures forall id :: id in ids && id in db.invoices && db.invoices[id].organisationId == org ==>
              SumPaid(db.payments, id) == if id in totals then totals[id] else 0
  {
    forall id ensures id in VisibleIds(db, org, ids) ==>
        TotalOf(GroupTotals(db.payments, VisibleIds(db, org, ids)), id) == SumPaid(db.payments, id)
      ensures id !in VisibleIds(db, org, ids) ==> id !in GroupTotals(db.payments, VisibleIds(db, org, ids))
    {
      GroupsAreSums(db.payments, VisibleIds(db, org, ids), id);
    }
    totals := map[];
    if ids == [] {
      NoGroups(db.payments);
      assert VisibleIds(db, org, ids) == {};
      return;
    }
    var rows := GroupTotals(db.payments, VisibleIds(db, org, ids));
    ghost var groups := rows;
    while rows != map[]
      invariant forall id :: id in groups <==> id in totals || id in rows
      invariant forall id :: id in totals ==> id !in rows && id in groups && totals[id] == groups[id]
      invariant forall id :: id in rows ==> id in groups && rows[id] == groups[id]
      decreases |rows|
    {
      assert rows.Keys != {};
      var id :| id in rows.Keys;
      totals := totals[id := rows[id]];
      OneFewer(rows, id);
      rows := rows - {id};
    }
  }

  lemma {:induction false} NoGroups(ps: seq<Payment>)
    ensures GroupTotals(ps, {}) == map[]
  {
    if ps != [] { NoGroups(ps[..|ps| - 1]); }
  }

  lemma OneFewer(rows: map<Uuid, int>, id: Uuid)
    requires id in rows
    ensures |rows - {id}| < |rows|
  {
    assert (rows - {id}).Keys == rows.Keys - {id};
    SubmapSize(rows - {id}, rows);
  }

  // ---- The call ----------------------------------------------------------

  datatype Item = Item(listed: Listed, amountPaid: int, currency: string)

  datatype ListError = StatusInvalid | IssueDateRangeInvalid | DueDateRangeInvalid | CurrencyUnavailable

  datatype Listing = Items(items: seq<Item>, count: nat) | NotListed(error: ListError)

  predicate After(a: Option<Time>, b: Option<Time>) { a.Some? && b.Some? && a.value > b.value }

  /** Why a filter is refused, the first reason that applies. */
  function CheckFilter(f: Filter): Option<ListError> {
    if f.status.Unrecognised? then Some(StatusInvalid)
    else if After(f.issueFrom, f.issueTo) then Some(IssueDateRangeInvalid)
    else if After(f.dueFrom, f.dueTo) then Some(DueDateRangeInvalid)
    else None
  }

  /** A Draft shows the live currency, anything issued only its own. */
  function CurrencyOf(row: InvoiceRow, settings: Option<string>): Option<string> {
    if row.status == Draft then
      if settings.None? then None else Some(NormalizeCurrency(settings.value))
    else if row.party.currency.None? || Trim(row.party.currency.value) == "" then None
    else Some(NormalizeCurrency(row.party.currency.value))
  }

  /** The stored currency a row is shown in: the live one for a Draft, its own
      for anything issued. */
  function ShownCurrency(row: InvoiceRow, settings: Option<string>): string {
    var stored := if row.status == Draft then settings else row.party.currency;
    if stored.None? then "" else stored.value
  }

  /** A row with no currency to show. */
  predicate Unpriced(row: InvoiceRow, settings: Option<string>) {
    if row.status == Draft then settings.None?
    else row.party.currency.None? || Trim(row.party.currency.value) == ""
  }

  lemma CurrencyIs(row: InvoiceRow, settings: Option<string>)
    ensures CurrencyOf(row, settings)
         == if Unpriced(row, settings) then None else Some(Upper(Trim(ShownCurrency(row, settings))))
  {
  }

  /** One item per row of the page, in its order. */
  ghost predicate ItemsOf(items: seq<Item>, page: seq<Listed>, db: Db, settings: Option<string>) {
    |items| == |page| && forall i :: 0 <= i < |page| ==>
      items[i].currency == Upper(Trim(ShownCurrency(page[i].row, settings)))
      && items[i].listed == page[i] && items[i].amountPaid == SumPaid(db.payments, page[i].id)
  }

  predicate FromDatabase(page: seq<Listed>, db: Db, org: Uuid) {
    forall x :: x in page ==> x.id in db.invoices && db.invoices[x.id] == x.row && x.row.organisationId == org
  }

  method HasDraft(page: seq<Listed>) returns (found: bool)
    ensures found <==> exists x :: x in page && x.row.status == Draft
  {
    for i := 0 to |page|
      invariant forall x :: x in page[..i] ==> x.row.status != Draft
    {
      if page[i].row.status == Draft { return true; }
      assert page[..i + 1] == page[..i] + [page[i]];
    }
    assert page[..|page|] == page;
    return false;
  }

  /** InvoiceService.List, given the page and the count its query returned. */
  method List(db: Db, org: Uuid, settings: Option<string>, f: Filter, page: seq<Listed>, count: nat)
    returns (r: Listing)
    requires FromDatabase(page, db, org)
    ensures match CheckFilter(f)
            case Some(e) => r == NotListed(e)
            case None =>
              if exists x :: x in page && Unpriced(x.row, settings) then r == NotListed(CurrencyUnavailable)
              else r.Items? && r.count == count && ItemsOf(r.items, page, db, settings)
  {
    if f.status.Unrecognised? { return NotListed(StatusInvalid); }
    if f.issueFrom.Some? && f.issueTo.Some? && f.issueFrom.value > f.issueTo.value {
      return NotListed(IssueDateRangeInvalid);
    }
    if f.dueFrom.Some? && f.dueTo.Some? && f.dueFrom.value > f.dueTo.value {
      return NotListed(DueDateRangeInvalid);
    }
    if page == [] { return Items([], count); }
    var hasDraft := HasDraft(page);
    if hasDraft && settings.None? {
      var x :| x in page && x.row.status == Draft;
      assert Unpriced(x.row, settings);
      return NotListed(CurrencyUnavailable);
    }
    var ids := seq(|page|, i requires 0 <= i < |page| => page[i].id);
    var totals := GetTotalPaidByInvoiceIds(db, org, ids);
    var items: seq<Item> := [];
    for i := 0 to |page|
      invariant |items| == i && ItemsOf(items, page[..i], db, settings)
      invariant forall x :: x in page[..i] ==> !Unpriced(x.row, settings)
    {
      assert page[i] in page;
      CurrencyIs(page[i].row, settings);
      var currency := CurrencyOf(page[i].row, settings);
      if currency.None? { return NotListed(CurrencyUnavailable); }
      assert ids[i] in ids;
      items := items + [Item(page[i], TotalOf(totals, page[i].id), currency.value)];
      assert page[..i + 1] == page[..i] + [page[i]];
    }
    assert page[..|page|] == page;
    r := Items(items, count);
  }
}
