/** Capability routing: a table of announced routes sorted by cost, and the cheapest route
    that satisfies an intent's constraints. */
module Routing {
  import opened Options
  import opened Money
  import opened Ordering

  const MAX_ROUTES := 128
  const MAX_CAPABILITY := 200

  datatype Value = Flag(b: bool) | Number(n: real) | Text(s: string) | Texts(items: seq<string>)

  type Policy = map<string, Value>

  /** Library text handling taken as given: trimming and lower-casing, reading flags and
      numbers out of text, case folding, printing a value, and rounding a decimal. */
  datatype Texting = Texting(
    normalize: string -> string,
    blank: string -> bool,
    parseFlag: string -> Option<bool>,
    parseNumber: string -> Option<real>,
    fold: string -> string,
    show: Value -> string,
    round: string -> real)

  datatype Announcement = Announcement(
    capability: string,
    version: string,
    cost: real,
    policy: Policy,
    costAmount: string,
    costMint: string,
    path: string,
    offer: string)

  datatype Entry = Entry(path: string, cost: real, policy: Policy, parsed: Option<Amount>, offer: string)

  // ---------------------------------------------------------------- announcements

  /** The segments of a capability between separators. */
  function Segments(s: string): (parts: seq<string>)
    ensures parts != []
    decreases |s|
  {
    var k := FirstOf(':', s);
    if k == |s| then [s] else [s[..k]] + Segments(s[k + 1..])
  }

  predicate ValidCapability(t: Texting, capability: string)
  {
    var normal := t.normalize(capability);
    && normal != "" && |capability| <= MAX_CAPABILITY
    && |Segments(normal)| >= 2 && forall i :: 0 <= i < |Segments(normal)| ==> Segments(normal)[i] != ""
  }

  predicate ValidAnnouncement(t: Texting, a: Announcement)
  {
    && ValidCapability(t, a.capability) && !t.blank(a.version) && !t.blank(a.path)
    && (a.costAmount != "" ==> Parse(a.costAmount).Ok? && a.costMint != "")
  }

  predicate NoPairs(s: string) { forall i :: 0 <= i < |s| - 1 ==> !(s[i] == ':' && s[i + 1] == ':') }

  predicate InnerColons(s: string) { s != "" && s[0] != ':' && s[|s| - 1] != ':' && NoPairs(s) }

  /** A text with a colon in it, none at either end, and no two side by side. */
  predicate IsDomainAction(s: string) { InnerColons(s) && ':' in s }

  lemma {:induction false} FirstColon(s: string)
    ensures var k := FirstOf(':', s); ':' !in s[..k] && (k < |s| ==> s[k] == ':')
  {
    if s != "" && s[0] != ':' {
      FirstColon(s[1..]);
      var k := FirstOf(':', s);
      assert s[..k] == [s[0]] + s[1..][..k - 1];
    }
  }

  ghost predicate AllNamed(parts: seq<string>) { forall i :: 0 <= i < |parts| ==> parts[i] != "" }

  /** Around the first colon. */
  lemma ColonsSplit(s: string, k: nat)
    requires k < |s| && s[k] == ':' && ':' !in s[..k]
    ensures InnerColons(s) <==> k > 0 && InnerColons(s[k + 1..])
  {
    var rest := s[k + 1..];
    forall i | 0 <= i < k ensures s[i] != ':' {
      assert s[i] == s[..k][i];
    }
    if NoPairs(s) {
      forall i | 0 <= i < |rest| - 1 ensures !(rest[i] == ':' && rest[i + 1] == ':') {
        assert rest[i] == s[i + k + 1] && rest[i + 1] == s[i + k + 2];
      }
    }
    if NoPairs(rest) && (rest == "" || rest[0] != ':') {
      forall i | 0 <= i < |s| - 1 ensures !(s[i] == ':' && s[i + 1] == ':') {
        if i > k { assert s[i] == rest[i - k - 1] && s[i + 1] == rest[i - k]; }
      }
    }
    if InnerColons(s) { assert !(s[k] == ':' && s[k + 1] == ':'); }
  }

  lemma {:induction false} SegmentsMean(s: string)
    ensures |Segments(s)| >= 2 <==> ':' in s
    ensures AllNamed(Segments(s)) <==> InnerColons(s)
    decreases |s|
  {
    var k := FirstOf(':', s);
    FirstColon(s);
    hide InnerColons, AllNamed;
    if k < |s| {
      SegmentsMean(s[k + 1..]);
      NamedSplit(s[..k], Segments(s[k + 1..]));
      ColonsSplit(s, k);
    } else {
      assert s[..k] == s;
      OneSegment(s);
    }
  }

  lemma OneSegment(s: string)
    requires ':' !in s
    ensures AllNamed([s]) <==> InnerColons(s)
  {
    assert [s][0] == s;
    assert forall i :: 0 <= i < |s| ==> s[i] in s;
  }

  lemma NamedSplit(first: string, rest: seq<string>)
    ensures AllNamed([first] + rest) <==> first != "" && AllNamed(rest)
  {
    assert ([first] + rest)[1..] == rest;
    forall i | 0 <= i < |rest| ensures ([first] + rest)[i + 1] == rest[i] {
    }
    if AllNamed([first] + rest) {
      assert ([first] + rest)[0] == first;
      forall i | 0 <= i < |rest| ensures rest[i] != "" {
        assert ([first] + rest)[i + 1] == rest[i];
      }
    }
  }

  /** A capability is a domain and an action, or more parts, none of them empty, in at most
      two hundred bytes as it is given. */
  lemma CapabilityGrammar(t: Texting, capability: string)
    ensures ValidCapability(t, capability) <==> |capability| <= 200 && IsDomainAction(t.normalize(capability))
  {
    SegmentsMean(t.normalize(capability));
    hide Segments;
  }

  function EntryFor(t: Texting, a: Announcement): Option<Entry>
  {
    if !ValidAnnouncement(t, a) then None
    else if a.costAmount == "" then Some(Entry(a.path, a.cost, a.policy, None, a.offer))
    else Some(Entry(a.path, t.round(a.costAmount), a.policy, Some(Parse(a.costAmount).value), a.offer))
  }

  // ---------------------------------------------------------------- cost order

  predicate LessCost(a: Entry, b: Entry)
  {
    if a.parsed.Some? && b.parsed.Some? then
      var cmp := Cmp(a.parsed.value, b.parsed.value);
      if cmp != 0 then cmp < 0 else Before(a.path, b.path)
    else if a.cost != b.cost then a.cost < b.cost
    else Before(a.path, b.path)
  }

  ghost predicate Exact(e: Entry) { e.parsed.Some? && Valid(e.parsed.value) }

  /** The exact cost, in billionths. */
  ghost function Nano(e: Entry): nat
    requires Exact(e)
  {
    Scaled(e.parsed.value, MAX_FRACTION_DIGITS)
  }

  ghost predicate Cheaper(a: Entry, b: Entry)
    requires Exact(a) && Exact(b)
  {
    Nano(a) < Nano(b) || (Nano(a) == Nano(b) && Before(a.path, b.path))
  }

  /** On parsed costs the comparison is by exact cost, then path. */
  lemma LessCostIsCheaper(a: Entry, b: Entry)
    requires Exact(a) && Exact(b)
    ensures LessCost(a, b) <==> Cheaper(a, b)
  {
    CmpIsNumeric(a.parsed.value, b.parsed.value, MAX_FRACTION_DIGITS);
    hide Cmp, Scaled;
  }

  lemma CheaperIsTransitive(a: Entry, b: Entry, c: Entry)
    requires Exact(a) && Exact(b) && Exact(c) && Cheaper(a, b) && Cheaper(b, c)
    ensures Cheaper(a, c)
  {
    hide Scaled;
    if Nano(a) == Nano(c) { BeforeIsTransitive(a.path, b.path, c.path); }
  }

  // ---------------------------------------------------------------- which tables it orders

  /** Of two entries on different paths exactly one comes first. */
  lemma LessCostIsTotal(a: Entry, b: Entry)
    requires Costed(a) && Costed(b)
    ensures a.path != b.path ==> (LessCost(a, b) <==> !LessCost(b, a))
    ensures !(LessCost(a, b) && LessCost(b, a))
  {
    BeforeIsTotal(a.path, b.path);
    if a.parsed.Some? && b.parsed.Some? {
      LessCostIsCheaper(a, b);
      LessCostIsCheaper(b, a);
      hide LessCost, Scaled;
    }
  }

  /** A parsed cost is a canonical amount. */
  ghost predicate Costed(e: Entry) { e.parsed.Some? ==> Valid(e.parsed.value) }

  /** Entries as announcements make them: every parsed cost also stands rounded, on its own
      path. */
  ghost predicate Announced(t: Texting, xs: seq<Entry>)
  {
    && (forall e :: e in xs && e.parsed.Some? ==> Valid(e.parsed.value) && e.cost == t.round(e.parsed.value.value))
    && DistinctPaths(xs)
  }

  ghost predicate DistinctPaths(xs: seq<Entry>) { forall i, j :: 0 <= i < j < |xs| ==> xs[i].path != xs[j].path }

  /** Rounding never inverts two amounts. */
  ghost predicate RoundsInOrder(t: Texting)
  {
    forall x: Amount, y: Amount :: Valid(x) && Valid(y) && Scaled(x, MAX_FRACTION_DIGITS) <= Scaled(y, MAX_FRACTION_DIGITS) ==>
      t.round(x.value) <= t.round(y.value)
  }

  /** The comparison is transitive on the table's entries, and so sorts it. */
  ghost predicate Orders(xs: seq<Entry>)
  {
    forall a, b, c :: a in xs && b in xs && c in xs && LessCost(a, b) && LessCost(b, c) ==> LessCost(a, c)
  }

  /** Rounding has merged two exact costs with an unparsed one, on paths that put the
      unparsed entry after the dearer and before the cheaper. */
  ghost predicate Merges(a: Entry, b: Entry, c: Entry)
  {
    && Exact(a) && Exact(b) && c.parsed.None? && Nano(a) < Nano(b)
    && a.cost == b.cost == c.cost && Before(b.path, c.path) && Before(c.path, a.path)
  }

  ghost predicate Merged(xs: seq<Entry>)
  {
    exists a, b, c :: a in xs && b in xs && c in xs && Merges(a, b, c)
  }

  lemma MergesCycles(a: Entry, b: Entry, c: Entry)
    requires Merges(a, b, c)
    ensures LessCost(a, b) && LessCost(b, c) && LessCost(c, a) && !LessCost(b, a)
  {
    LessCostIsCheaper(a, b);
    LessCostIsCheaper(b, a);
    hide Cmp, Scaled;
  }

  /** The order among three entries, by which of their costs are parsed. */
  lemma Transits(t: Texting, a: Entry, b: Entry, c: Entry)
    requires RoundsInOrder(t)
    requires forall e :: e in {a, b, c} && e.parsed.Some? ==> Valid(e.parsed.value) && e.cost == t.round(e.parsed.value.value)
    requires a.path != c.path && LessCost(a, b) && LessCost(b, c)
    ensures LessCost(a, c) || Merges(a, b, c) || Merges(b, c, a) || Merges(c, a, b)
  {
    BeforeIsTotal(a.path, c.path);
    if Before(a.path, b.path) && Before(b.path, c.path) { BeforeIsTransitive(a.path, b.path, c.path); }
    if a.parsed.Some? && b.parsed.Some? { Compared(t, a, b); }
    if b.parsed.Some? && c.parsed.Some? { Compared(t, b, c); }
    if a.parsed.Some? && c.parsed.Some? { Compared(t, a, c); }
    if a.parsed.Some? && b.parsed.Some? && c.parsed.Some? { CheaperIsTransitive(a, b, c); }
    hide Cmp, Scaled, Before;
  }

  lemma Compared(t: Texting, a: Entry, b: Entry)
    requires RoundsInOrder(t) && Exact(a) && Exact(b)
    requires a.cost == t.round(a.parsed.value.value) && b.cost == t.round(b.parsed.value.value)
    ensures LessCost(a, b) <==> Cheaper(a, b)
    ensures Nano(a) <= Nano(b) ==> a.cost <= b.cost
    ensures Nano(b) <= Nano(a) ==> b.cost <= a.cost
  {
    LessCostIsCheaper(a, b);
    hide LessCost, Scaled, Before;
  }

  /** On announced entries the comparison orders the table exactly when rounding has merged
      no unparsed cost between two parsed ones. */
  lemma OrdersIffNothingMerged(t: Texting, xs: seq<Entry>)
    requires RoundsInOrder(t) && Announced(t, xs)
    ensures Orders(xs) <==> !Merged(xs)
  {
    hide LessCost, Merges, RoundsInOrder;
    if Merged(xs) {
      var a, b, c :| a in xs && b in xs && c in xs && Merges(a, b, c);
      MergesCycles(a, b, c);
    } else {
      forall a, b, c | a in xs && b in xs && c in xs && LessCost(a, b) && LessCost(b, c) ensures LessCost(a, c) {
        if a.path == c.path {
          SamePath(t, xs, a, c);
          LessCostIsTotal(a, b);
        } else {
          Transits(t, a, b, c);
        }
      }
    }
  }

  lemma SamePath(t: Texting, xs: seq<Entry>, a: Entry, b: Entry)
    requires Announced(t, xs) && a in xs && b in xs && a.path == b.path
    ensures a == b
  {
    var i, j :| 0 <= i < |xs| && 0 <= j < |xs| && xs[i] == a && xs[j] == b;
  }

  /** So a table of parsed costs only, or of unparsed costs only, is always ordered. */
  lemma PlainTablesOrder(t: Texting, xs: seq<Entry>)
    requires RoundsInOrder(t) && Announced(t, xs)
    requires (forall e :: e in xs ==> e.parsed.Some?) || (forall e :: e in xs ==> e.parsed.None?)
    ensures Orders(xs)
  {
    hide Orders, RoundsInOrder;
    OrdersIffNothingMerged(t, xs);
  }

  // ---------------------------------------------------------------- the sorted table

  /** A stable sort by the comparison as it is written. */
  function Place(x: Entry, ys: seq<Entry>): seq<Entry>
  {
    if ys == [] then [x]
    else if LessCost(ys[0], x) then [ys[0]] + Place(x, ys[1..])
    else [x] + ys
  }

  function Sorted(xs: seq<Entry>): seq<Entry>
  {
    if xs == [] then [] else Place(xs[0], Sorted(xs[1..]))
  }

  /** A table the comparison puts in one order: transitive on its entries, paths distinct. */
  ghost predicate Sortable(xs: seq<Entry>)
  {
    && Orders(xs) && (forall e :: e in xs ==> Costed(e))
    && DistinctPaths(xs)
  }

  ghost predicate Ascending(xs: seq<Entry>)
  {
    xs == [] || ((forall y :: y in xs[1..] ==> LessCost(xs[0], y)) && Ascending(xs[1..]))
  }

  /** An entry not yet among these, that may be compared with all of them. */
  ghost predicate Joins(x: Entry, ys: seq<Entry>)
  {
    Orders([x] + ys) && Costed(x) && forall y :: y in ys ==> Costed(y) && y.path != x.path
  }

  lemma FewerOrder(xs: seq<Entry>, ys: seq<Entry>)
    requires Orders(xs) && forall y :: y in ys ==> y in xs
    ensures Orders(ys)
  {
    hide LessCost;
  }

  lemma JoinsTail(x: Entry, ys: seq<Entry>)
    requires Joins(x, ys) && ys != []
    ensures Joins(x, ys[1..])
  {
    hide LessCost, Orders;
    FewerOrder([x] + ys, [x] + ys[1..]);
  }

  lemma {:induction false} PlaceAscends(x: Entry, ys: seq<Entry>)
    requires Ascending(ys) && Joins(x, ys)
    ensures Ascending(Place(x, ys)) && multiset(Place(x, ys)) == multiset{x} + multiset(ys)
  {
    hide Costed, LessCost;
    if ys != [] {
      assert ys == [ys[0]] + ys[1..];
      LessCostIsTotal(x, ys[0]);
      if LessCost(ys[0], x) {
        var tail := Place(x, ys[1..]);
        JoinsTail(x, ys);
        PlaceAscends(x, ys[1..]);
        forall y | y in tail ensures LessCost(ys[0], y) {
          assert y in multiset(tail);
        }
        assert ([ys[0]] + tail)[1..] == tail;
      } else {
        forall y | y in ys ensures LessCost(x, y) {
          if y != ys[0] { assert x in [x] + ys && ys[0] in [x] + ys && y in [x] + ys; }
        }
        assert ([x] + ys)[1..] == ys;
      }
    }
  }

  lemma SortableTail(xs: seq<Entry>)
    requires Sortable(xs) && xs != []
    ensures Sortable(xs[1..]) && Joins(xs[0], xs[1..])
  {
    hide Costed, Orders;
    FewerOrder(xs, xs[1..]);
    assert [xs[0]] + xs[1..] == xs;
    forall y | y in xs[1..] ensures Costed(y) && y.path != xs[0].path {
      var i :| 0 <= i < |xs[1..]| && xs[1..][i] == y;
      assert xs[i + 1] == y;
    }
  }

  lemma JoinsPermutes(x: Entry, ys: seq<Entry>, zs: seq<Entry>)
    requires Joins(x, ys) && multiset(ys) == multiset(zs)
    ensures Joins(x, zs)
  {
    hide Costed, Orders;
    forall z | z in zs ensures z in ys {
      assert z in multiset(ys);
    }
    FewerOrder([x] + ys, [x] + zs);
  }

  lemma {:induction false} SortedAscends(xs: seq<Entry>)
    requires Sortable(xs)
    ensures Ascending(Sorted(xs)) && multiset(Sorted(xs)) == multiset(xs)
  {
    hide Ascending, Sortable, Joins, Place;
    if xs == [] {
      EmptyAscends();
    } else {
      SortableTail(xs);
      SortedAscends(xs[1..]);
      assert xs == [xs[0]] + xs[1..];
      JoinsPermutes(xs[0], xs[1..], Sorted(xs[1..]));
      PlaceAscends(xs[0], Sorted(xs[1..]));
    }
  }

  lemma EmptyAscends()
    ensures Ascending([])
  {
  }

  // ---------------------------------------------------------------- constraints

  function ToFlag(t: Texting, v: Value): Option<bool>
  {
    match v
    case Flag(b) => Some(b)
    case Text(s) => t.parseFlag(s)
    case _ => None
  }

  function ToNumber(t: Texting, v: Value): Option<real>
  {
    match v
    case Number(n) => Some(n)
    case Text(s) => t.parseNumber(s)
    case _ => None
  }

  function ToTexts(t: Texting, v: Value): Option<seq<string>>
  {
    match v
    case Texts(items) => Some(items)
    case Text(s) => Some([s])
    case _ => None
  }

  predicate MatchPolicy(t: Texting, key: string, want: Value, have: Value)
  {
    if key == "requires_pii" then
      ToFlag(t, want).Some? && ToFlag(t, have).Some? && (ToFlag(t, want).value ==> ToFlag(t, have).value)
    else if key == "security_level" then
      ToNumber(t, want).Some? && ToNumber(t, have).Some? && ToNumber(t, have).value >= ToNumber(t, want).value
    else if key == "settlement_modes" || key == "currencies" then
      && ToTexts(t, want).Some? && ToTexts(t, have).Some?
      && exists w, h :: w in ToTexts(t, want).value && h in ToTexts(t, have).value && t.fold(w) == t.fold(h)
    else t.show(want) == t.show(have)
  }

  /** Every constraint is announced and matched. */
  predicate Complies(t: Texting, announced: Policy, constraints: Policy)
  {
    forall key :: key in constraints ==> key in announced && MatchPolicy(t, key, constraints[key], announced[key])
  }

  method CheckPolicy(t: Texting, announced: Policy, constraints: Policy) returns (ok: bool)
    ensures ok == Complies(t, announced, constraints)
  {
    var keys := constraints.Keys;
    while keys != {}
      invariant keys <= constraints.Keys
      invariant forall key :: key in constraints && key !in keys ==>
                  key in announced && MatchPolicy(t, key, constraints[key], announced[key])
      decreases keys
    {
      var key :| key in keys;
      if key !in announced || !MatchPolicy(t, key, constraints[key], announced[key]) {
        return false;
      }
      keys := keys - {key};
    }
    ok := true;
  }

  // ---------------------------------------------------------------- building and routing

  datatype Table = Table(entries: map<string, seq<Entry>>)

  /** The entries announced for one capability, in announcement order. */
  function EntriesOf(t: Texting, announcements: seq<Announcement>, capability: string): seq<Entry>
  {
    if announcements == [] then []
    else
      var last, before := announcements[|announcements| - 1], EntriesOf(t, announcements[..|announcements| - 1], capability);
      if EntryFor(t, last).Some? && t.normalize(last.capability) == capability then before + [EntryFor(t, last).value] else before
  }

  predicate AllValid(t: Texting, announcements: seq<Announcement>)
  {
    forall i :: 0 <= i < |announcements| ==> ValidAnnouncement(t, announcements[i])
  }

  method BuildTable(t: Texting, announcements: seq<Announcement>) returns (table: Option<Table>)
    ensures table.Some? <==> |announcements| <= MAX_ROUTES && AllValid(t, announcements)
    ensures table.Some? ==> forall c :: EntriesOf(t, announcements, c) != [] <==> c in table.value.entries
    ensures table.Some? ==> forall c :: c in table.value.entries ==>
                              table.value.entries[c] == Sorted(EntriesOf(t, announcements, c))
  {
    hide ValidAnnouncement, EntryFor, Sorted, EntriesOf;
    if |announcements| > MAX_ROUTES {
      return None;
    }
    var grouped := Group(t, announcements);
    if grouped.None? {
      return None;
    }
    var entries := grouped.value;
    table := Some(Table(map c | c in entries :: Sorted(entries[c])));
  }

  /** Entries by capability, in announcement order; none when any announcement is invalid. */
  method Group(t: Texting, announcements: seq<Announcement>) returns (grouped: Option<map<string, seq<Entry>>>)
    ensures grouped.Some? <==> AllValid(t, announcements)
    ensures grouped.Some? ==> forall c :: EntriesOf(t, announcements, c) == Listed(grouped.value, c)
    ensures grouped.Some? ==> forall c :: c in grouped.value ==> grouped.value[c] != []
  {
    hide ValidAnnouncement;
    var entries: map<string, seq<Entry>> := map[];
    for i := 0 to |announcements|
      invariant AllValid(t, announcements[..i])
      invariant forall c :: EntriesOf(t, announcements[..i], c) == Listed(entries, c)
      invariant forall c :: c in entries ==> entries[c] != []
    {
      var a := announcements[i];
      assert announcements[..i + 1][..i] == announcements[..i] && announcements[..i + 1][i] == a;
      var entry := EntryFor(t, a);
      if entry.None? {
        return None;
      }
      var capability := t.normalize(a.capability);
      entries := entries[capability := Listed(entries, capability) + [entry.value]];
    }
    assert announcements[..|announcements|] == announcements;
    grouped := Some(entries);
  }

  function Listed(entries: map<string, seq<Entry>>, capability: string): seq<Entry>
  {
    if capability in entries then entries[capability] else []
  }

  datatype Outcome =
    | InvalidIntent
    | RouteNotFound
    | PolicyViolation(considered: nat)
    | Routed(route: Entry, considered: nat, rejected: map<string, nat>)

  /** The first compliant entry of a list. */
  function FirstCompliant(t: Texting, entries: seq<Entry>, constraints: Policy): Option<Entry>
  {
    if entries == [] then None
    else if Complies(t, entries[0].policy, constraints) then Some(entries[0])
    else FirstCompliant(t, entries[1..], constraints)
  }

  /** How many entries of an offer do not comply. */
  function RejectedOf(t: Texting, entries: seq<Entry>, constraints: Policy, offer: string): nat
  {
    if entries == [] then 0
    else
      var last := entries[|entries| - 1];
      RejectedOf(t, entries[..|entries| - 1], constraints, offer)
      + if last.offer == offer && !Complies(t, last.policy, constraints) then 1 else 0
  }

  /** Refusals counted by named offer, and no offer without one. */
  ghost predicate Tallies(t: Texting, entries: seq<Entry>, constraints: Policy, rejected: map<string, nat>)
  {
    forall o: string :: if o != "" && RejectedOf(t, entries, constraints, o) > 0
      then o in rejected && rejected[o] == RejectedOf(t, entries, constraints, o) else o !in rejected
  }

  predicate Refused(t: Texting, e: Entry, constraints: Policy, offer: string)
  {
    e.offer == offer && !Complies(t, e.policy, constraints)
  }

  /** The places in a list of an offer's entries that do not comply. */
  function Refusals(t: Texting, entries: seq<Entry>, constraints: Policy, offer: string): set<nat>
  {
    set i: nat | i < |entries| && Refused(t, entries[i], constraints, offer)
  }

  lemma {:induction false} RejectedCounts(t: Texting, entries: seq<Entry>, constraints: Policy, offer: string)
    ensures RejectedOf(t, entries, constraints, offer) == |Refusals(t, entries, constraints, offer)|
  {
    hide Complies;
    if entries != [] {
      var n := |entries| - 1;
      RejectedCounts(t, entries[..n], constraints, offer);
      OneMoreRefusal(t, entries, constraints, offer);
    }
  }

  lemma OneMoreRefusal(t: Texting, entries: seq<Entry>, constraints: Policy, offer: string)
    requires entries != []
    ensures var n := |entries| - 1;
            |Refusals(t, entries, constraints, offer)| == |Refusals(t, entries[..n], constraints, offer)|
            + if Refused(t, entries[n], constraints, offer) then 1 else 0
  {
    hide Refused;
    var n := |entries| - 1;
    var fewer, all := Refusals(t, entries[..n], constraints, offer), Refusals(t, entries, constraints, offer);
    forall i: nat | i < n ensures entries[..n][i] == entries[i] {
    }
    assert all == fewer + if Refused(t, entries[n], constraints, offer) then {n} else {};
  }

  lemma {:induction false} FirstOfJoined(t: Texting, a: seq<Entry>, e: Entry, constraints: Policy)
    ensures FirstCompliant(t, a + [e], constraints)
            == if FirstCompliant(t, a, constraints).Some? then FirstCompliant(t, a, constraints)
               else if Complies(t, e.policy, constraints) then Some(e) else None
  {
    hide Complies;
    if a == [] {
      assert a + [e] == [e] && [e][1..] == [];
    } else {
      assert (a + [e])[1..] == a[1..] + [e];
      FirstOfJoined(t, a[1..], e, constraints);
    }
  }

  function Tally(rejected: map<string, nat>, offer: string): nat { if offer in rejected then rejected[offer] else 0 }

  lemma TalliesNext(t: Texting, a: seq<Entry>, e: Entry, constraints: Policy, rejected: map<string, nat>)
    requires Tallies(t, a, constraints, rejected)
    ensures Tallies(t, a + [e], constraints,
                    if Complies(t, e.policy, constraints) || e.offer == "" then rejected
                    else rejected[e.offer := Tally(rejected, e.offer) + 1])
  {
    hide Complies;
    assert (a + [e])[..|a|] == a;
  }

  lemma NothingYet(t: Texting, constraints: Policy)
    ensures FirstCompliant(t, [], constraints) == None && Tallies(t, [], constraints, map[])
  {
  }

  method Route(t: Texting, table: Table, target: string, hasPayload: bool, constraints: Policy) returns (out: Outcome)
    ensures out.InvalidIntent? <==> !ValidCapability(t, target) || !hasPayload
    ensures !out.InvalidIntent? ==>
              var c := t.normalize(target);
              if c !in table.entries || table.entries[c] == [] then out == RouteNotFound
              else match FirstCompliant(t, table.entries[c], constraints)
                   case None => out == PolicyViolation(|table.entries[c]|)
                   case Some(e) => out.Routed? && out.route == e && out.considered == |table.entries[c]|
                                   && Tallies(t, table.entries[c], constraints, out.rejected)
  {
    hide Complies, Tallies, ValidCapability, FirstCompliant;
    if !ValidCapability(t, target) || !hasPayload {
      return InvalidIntent;
    }
    var capability := t.normalize(target);
    if capability !in table.entries || table.entries[capability] == [] {
      return RouteNotFound;
    }
    var candidates := table.entries[capability];
    var best: Option<Entry> := None;
    var rejected: map<string, nat> := map[];
    NothingYet(t, constraints);
    for i := 0 to |candidates|
      invariant best == FirstCompliant(t, candidates[..i], constraints)
      invariant Tallies(t, candidates[..i], constraints, rejected)
    {
      var entry := candidates[i];
      var ok := CheckPolicy(t, entry.policy, constraints);
      assert candidates[..i + 1] == candidates[..i] + [entry];
      FirstOfJoined(t, candidates[..i], entry, constraints);
      TalliesNext(t, candidates[..i], entry, constraints, rejected);
      if ok {
        if best.None? {
          best := Some(entry);
        }
      } else if entry.offer != "" {
        rejected := rejected[entry.offer := Tally(rejected, entry.offer) + 1];
      }
    }
    assert candidates[..|candidates|] == candidates;
    out := if best.None? then PolicyViolation(|candidates|) else Routed(best.value, |candidates|, rejected);
  }

  // ---------------------------------------------------------------- the least compliant route

  /** The compliant entry the comparison puts before every other. */
  ghost predicate IsLeast(t: Texting, entries: seq<Entry>, constraints: Policy, e: Entry)
  {
    && e in entries && Complies(t, e.policy, constraints)
    && forall x :: x in entries && x != e && Complies(t, x.policy, constraints) ==> LessCost(e, x)
  }

  lemma {:induction false} FirstIsLeast(t: Texting, entries: seq<Entry>, constraints: Policy)
    requires Ascending(entries)
    ensures match FirstCompliant(t, entries, constraints)
            case None => forall x :: x in entries ==> !Complies(t, x.policy, constraints)
            case Some(e) => IsLeast(t, entries, constraints, e)
  {
    hide LessCost, Complies;
    if entries != [] {
      assert entries == [entries[0]] + entries[1..];
      if !Complies(t, entries[0].policy, constraints) { FirstIsLeast(t, entries[1..], constraints); }
    }
  }

  lemma LeastIsUnique(t: Texting, entries: seq<Entry>, constraints: Policy, a: Entry, b: Entry)
    requires IsLeast(t, entries, constraints, a) && IsLeast(t, entries, constraints, b) && Costed(a) && Costed(b)
    ensures a == b
  {
    hide Complies, LessCost;
    LessCostIsTotal(a, b);
  }

  /** Routing over a table the comparison orders returns the one least compliant route, and
      refuses exactly when none complies. */
  lemma RouteIsLeast(t: Texting, announced: seq<Entry>, constraints: Policy)
    requires Sortable(announced)
    ensures match FirstCompliant(t, Sorted(announced), constraints)
            case None => forall x :: x in announced ==> !Complies(t, x.policy, constraints)
            case Some(e) => IsLeast(t, announced, constraints, e)
                            && forall x :: IsLeast(t, announced, constraints, x) ==> x == e
  {
    hide Complies, LessCost, Ascending, Orders, Costed;
    SortedAscends(announced);
    FirstIsLeast(t, Sorted(announced), constraints);
    assert forall x :: x in announced <==> x in Sorted(announced) by {
      forall x ensures x in announced <==> x in Sorted(announced) {
        assert x in multiset(announced) <==> x in multiset(Sorted(announced));
      }
    }
    var first := FirstCompliant(t, Sorted(announced), constraints);
    if first.Some? {
      forall x | IsLeast(t, announced, constraints, x) ensures x == first.value {
        LeastIsUnique(t, announced, constraints, x, first.value);
      }
    }
  }

  /** A table of exact costs on distinct paths. */
  ghost predicate ExactTable(xs: seq<Entry>)
  {
    && (forall e :: e in xs ==> Exact(e))
    && DistinctPaths(xs)
  }

  lemma ExactIsSortable(xs: seq<Entry>)
    requires ExactTable(xs)
    ensures Sortable(xs)
  {
    hide LessCost, Cheaper;
    forall a, b, c | a in xs && b in xs && c in xs && LessCost(a, b) && LessCost(b, c) ensures LessCost(a, c) {
      LessCostIsCheaper(a, b);
      LessCostIsCheaper(b, c);
      LessCostIsCheaper(a, c);
      CheaperIsTransitive(a, b, c);
    }
  }

  /** On exact costs the route is the one least by exact cost, then path. */
  lemma RouteIsCheapest(t: Texting, announced: seq<Entry>, constraints: Policy)
    requires ExactTable(announced)
    ensures match FirstCompliant(t, Sorted(announced), constraints)
            case None => forall x :: x in announced ==> !Complies(t, x.policy, constraints)
            case Some(e) =>
              && e in announced && Complies(t, e.policy, constraints) && Exact(e)
              && forall x :: x in announced && x != e && Complies(t, x.policy, constraints) ==> Exact(x) && Cheaper(e, x)
  {
    hide Complies, Exact, Cheaper, LessCost, Sorted, Sortable, FirstCompliant;
    ExactIsSortable(announced);
    RouteIsLeast(t, announced, constraints);
    var first := FirstCompliant(t, Sorted(announced), constraints);
    if first.Some? {
      forall x | x in announced && x != first.value && Complies(t, x.policy, constraints) ensures Exact(x) && Cheaper(first.value, x) {
        LessCostIsCheaper(first.value, x);
      }
    }
  }

  /** The route does not depend on the order entries were listed in. */
  lemma AnnouncementOrderIsForgotten(t: Texting, a: seq<Entry>, b: seq<Entry>, constraints: Policy)
    requires Sortable(a) && Sortable(b) && multiset(a) == multiset(b)
    ensures FirstCompliant(t, Sorted(a), constraints) == FirstCompliant(t, Sorted(b), constraints)
  {
    hide Complies, LessCost, Sorted, FirstCompliant, Sortable, IsLeast;
    RouteIsLeast(t, a, constraints);
    RouteIsLeast(t, b, constraints);
    forall x ensures x in a <==> x in b {
      assert x in multiset(a) <==> x in multiset(b);
    }
    var x, y := FirstCompliant(t, Sorted(a), constraints), FirstCompliant(t, Sorted(b), constraints);
    if x.Some? {
      SameLeast(t, a, b, constraints, x.value);
    } else if y.Some? {
      SameLeast(t, b, a, constraints, y.value);
    }
  }

  lemma SameLeast(t: Texting, a: seq<Entry>, b: seq<Entry>, constraints: Policy, e: Entry)
    requires IsLeast(t, a, constraints, e) && forall x :: x in a <==> x in b
    ensures IsLeast(t, b, constraints, e) && e in b && Complies(t, e.policy, constraints)
  {
    hide Complies, LessCost;
  }

  lemma {:induction false} EntriesJoin(t: Texting, x: seq<Announcement>, y: seq<Announcement>, c: string)
    ensures EntriesOf(t, x + y, c) == EntriesOf(t, x, c) + EntriesOf(t, y, c)
    decreases |y|
  {
    hide EntryFor;
    if y == [] {
      assert x + y == x;
    } else {
      assert (x + y)[..|x + y| - 1] == x + y[..|y| - 1];
      EntriesJoin(t, x, y[..|y| - 1], c);
    }
  }

  /** Announcing the same routes in another order lists the same entries. */
  lemma {:induction false} EntriesPermute(t: Texting, a: seq<Announcement>, b: seq<Announcement>, c: string)
    requires multiset(a) == multiset(b)
    ensures multiset(EntriesOf(t, a, c)) == multiset(EntriesOf(t, b, c))
    decreases |a|
  {
    if a == [] {
      assert |multiset(a)| == |a| && |multiset(b)| == |b|;
    } else {
      var j := Find(a, b);
      RestsAgree(a, b, j);
      hide EntriesOf;
      EntriesPermute(t, a[1..], b[..j] + b[j + 1..], c);
      Around(a, 0);
      Around(b, j);
      EntriesMiddle(t, a[..0], a[0], a[1..], c);
      EntriesMiddle(t, b[..j], b[j], b[j + 1..], c);
      assert a[..0] + a[1..] == a[1..];
    }
  }

  lemma EntriesMiddle(t: Texting, x: seq<Announcement>, h: Announcement, y: seq<Announcement>, c: string)
    ensures multiset(EntriesOf(t, x + [h] + y, c)) == multiset(EntriesOf(t, [h], c)) + multiset(EntriesOf(t, x + y, c))
  {
    hide EntriesOf;
    EntriesJoin(t, x, [h], c);
    EntriesJoin(t, x + [h], y, c);
    EntriesJoin(t, x, y, c);
  }

  /** Valid announcements make entries whose parsed cost also stands rounded. */
  lemma {:induction false} EntriesAreCosted(t: Texting, announcements: seq<Announcement>, c: string)
    ensures forall e :: e in EntriesOf(t, announcements, c) && e.parsed.Some? ==>
              Valid(e.parsed.value) && e.cost == t.round(e.parsed.value.value)
  {
    hide Parse, ValidCapability;
    if announcements != [] {
      var last := announcements[|announcements| - 1];
      EntriesAreCosted(t, announcements[..|announcements| - 1], c);
      ParseAcceptsCanonical(last.costAmount);
    }
  }

  /** A table's comparison orders the entries announced for a capability exactly when
      rounding has merged no unparsed cost of theirs between two parsed ones. */
  lemma TableOrdersIff(t: Texting, announcements: seq<Announcement>, c: string)
    requires RoundsInOrder(t) && DistinctPaths(EntriesOf(t, announcements, c))
    ensures Sortable(EntriesOf(t, announcements, c)) <==> !Merged(EntriesOf(t, announcements, c))
  {
    hide EntriesOf, RoundsInOrder, Orders, Merged;
    var xs := EntriesOf(t, announcements, c);
    EntriesAreCosted(t, announcements, c);
    assert Announced(t, xs);
    OrdersIffNothingMerged(t, xs);
  }

  /** This entry stands for this announcement of the capability: its path, its policy and its
      offer as announced, its exact cost when an amount is announced and that amount rounded
      beside it, and otherwise the cost as announced and nothing exact. */
  predicate StandsFor(t: Texting, a: Announcement, c: string, e: Entry)
  {
    && t.normalize(a.capability) == c && e.path == a.path && e.policy == a.policy && e.offer == a.offer
    && (if a.costAmount == "" then e.parsed == None && e.cost == a.cost
        else e.parsed == Some(Amount(a.costAmount)) && e.cost == t.round(a.costAmount))
  }

  lemma EntryStands(t: Texting, a: Announcement)
    requires ValidAnnouncement(t, a)
    ensures EntryFor(t, a).Some? && StandsFor(t, a, t.normalize(a.capability), EntryFor(t, a).value)
  {
    hide Parse, ValidCapability;
    ParseAcceptsCanonical(a.costAmount);
  }

  lemma EntriesNext(t: Texting, announcements: seq<Announcement>, c: string)
    requires announcements != [] && ValidAnnouncement(t, announcements[|announcements| - 1])
    ensures var n, last := |announcements| - 1, announcements[|announcements| - 1];
            if t.normalize(last.capability) == c then
              EntryFor(t, last).Some? && StandsFor(t, last, c, EntryFor(t, last).value)
              && EntriesOf(t, announcements, c) == EntriesOf(t, announcements[..n], c) + [EntryFor(t, last).value]
            else EntriesOf(t, announcements, c) == EntriesOf(t, announcements[..n], c)
  {
    EntryStands(t, announcements[|announcements| - 1]);
    hide EntryFor, ValidAnnouncement, StandsFor;
  }

  /** A table's entries for a capability are its announcements of it, in their order. */
  lemma {:induction false} EntriesAreAnnouncements(t: Texting, announcements: seq<Announcement>, c: string) returns (places: seq<nat>)
    requires AllValid(t, announcements)
    ensures |places| == |EntriesOf(t, announcements, c)|
    ensures forall i :: 0 <= i < |places| ==>
              places[i] < |announcements| && StandsFor(t, announcements[places[i]], c, EntriesOf(t, announcements, c)[i])
    ensures forall i, j :: 0 <= i < j < |places| ==> places[i] < places[j]
    ensures forall k :: 0 <= k < |announcements| && t.normalize(announcements[k].capability) == c ==> k in places
  {
    places := [];
    if announcements == [] {
      NoneListed(t, c);
    } else {
      hide EntriesOf, EntryFor, ValidAnnouncement, StandsFor;
      var n := |announcements| - 1;
      places := EntriesAreAnnouncements(t, announcements[..n], c);
      EntriesNext(t, announcements, c);
      if t.normalize(announcements[n].capability) == c { places := places + [n]; }
    }
  }

  lemma NoneListed(t: Texting, c: string)
    ensures EntriesOf(t, [], c) == []
  {
  }

  /** An announcement is taken exactly when its capability is well formed, its version and
      path are not blank, and an amount it states is a decimal with a mint. */
  lemma AnnouncementTaken(t: Texting, a: Announcement)
    ensures EntryFor(t, a).Some? <==>
              && |a.capability| <= 200 && IsDomainAction(t.normalize(a.capability))
              && !t.blank(a.version) && !t.blank(a.path)
              && (a.costAmount == "" || (a.costMint != "" && exists i, f :: IsDecimal(a.costAmount, i, f)))
  {
    CapabilityGrammar(t, a.capability);
    ParseIsGrammar(a.costAmount);
    hide Parse, ValidCapability, IsDomainAction, IsDecimal;
  }

  /** The route an intent gets does not depend on the order of the announcements. */
  lemma RouteForgetsAnnouncementOrder(t: Texting, a: seq<Announcement>, b: seq<Announcement>, c: string, constraints: Policy)
    requires multiset(a) == multiset(b) && Sortable(EntriesOf(t, a, c)) && Sortable(EntriesOf(t, b, c))
    ensures FirstCompliant(t, Sorted(EntriesOf(t, a, c)), constraints)
            == FirstCompliant(t, Sorted(EntriesOf(t, b, c)), constraints)
  {
    hide EntriesOf, Sortable, Sorted, FirstCompliant;
    EntriesPermute(t, a, b, c);
    AnnouncementOrderIsForgotten(t, EntriesOf(t, a, c), EntriesOf(t, b, c), constraints);
  }

  /** Adding constraints never opens a route that was closed, nor one the comparison puts
      earlier. */
  lemma ConstraintsNeverCheapen(t: Texting, announced: seq<Entry>, fewer: Policy, more: Policy)
    requires Sortable(announced)
    requires forall key :: key in fewer ==> key in more && more[key] == fewer[key]
    ensures var a, b := FirstCompliant(t, Sorted(announced), fewer), FirstCompliant(t, Sorted(announced), more);
            b.Some? ==> a.Some? && (a == b || LessCost(a.value, b.value))
    ensures var a, b := FirstCompliant(t, Sorted(announced), fewer), FirstCompliant(t, Sorted(announced), more);
            ExactTable(announced) && b.Some? ==>
              a.Some? && Exact(a.value) && Exact(b.value) && (a == b || Cheaper(a.value, b.value))
  {
    hide MatchPolicy, Exact, Cheaper, Sorted, FirstCompliant, Sortable, LessCost;
    RouteIsLeast(t, announced, fewer);
    RouteIsLeast(t, announced, more);
    var a, b := FirstCompliant(t, Sorted(announced), fewer), FirstCompliant(t, Sorted(announced), more);
    if ExactTable(announced) && b.Some? { LessCostIsCheaper(a.value, b.value); }
  }

  // ---------------------------------------------------------------- what compliance means

  /** A value read as a yes or no, given as such or as text that says so. */
  predicate SaysFlag(t: Texting, v: Value, b: bool) { v == Flag(b) || (v.Text? && t.parseFlag(v.s) == Some(b)) }

  predicate SaysNumber(t: Texting, v: Value, n: real) { v == Number(n) || (v.Text? && t.parseNumber(v.s) == Some(n)) }

  /** One of the texts a value lists, a single text listing itself. */
  predicate Lists(v: Value, s: string) { v == Text(s) || (v.Texts? && s in v.items) }

  predicate IsListing(v: Value) { v.Text? || v.Texts? }

  /** What each key asks of a route that announces it: personal data handling where it is
      wanted; a security level no lower than the wanted one; a settlement mode or currency in
      common, whatever its case; of any other key, that it prints the same. */
  ghost predicate Meets(t: Texting, key: string, want: Value, have: Value)
  {
    if key == "requires_pii" then
      exists w: bool, h: bool :: SaysFlag(t, want, w) && SaysFlag(t, have, h) && (!w || h)
    else if key == "security_level" then
      exists w: real, h: real :: SaysNumber(t, want, w) && SaysNumber(t, have, h) && w <= h
    else if key in {"settlement_modes", "currencies"} then
      IsListing(want) && IsListing(have) && exists w: string, h: string :: Lists(want, w) && Lists(have, h) && t.fold(w) == t.fold(h)
    else t.show(want) == t.show(have)
  }

  lemma MatchMeets(t: Texting, key: string, want: Value, have: Value)
    ensures MatchPolicy(t, key, want, have) <==> Meets(t, key, want, have)
  {
    if key == "requires_pii" {
      FlagsRead(t, want);
      FlagsRead(t, have);
      hide ToFlag, SaysFlag;
      if ToFlag(t, want).Some? && ToFlag(t, have).Some? {
        assert SaysFlag(t, want, ToFlag(t, want).value) && SaysFlag(t, have, ToFlag(t, have).value);
      }
    } else if key == "security_level" {
      NumbersRead(t, want);
      NumbersRead(t, have);
      hide ToNumber, SaysNumber;
      if ToNumber(t, want).Some? && ToNumber(t, have).Some? {
        assert SaysNumber(t, want, ToNumber(t, want).value) && SaysNumber(t, have, ToNumber(t, have).value);
      }
    } else if key in {"settlement_modes", "currencies"} {
      TextsRead(t, want);
      TextsRead(t, have);
      hide ToTexts, Lists;
    }
  }

  lemma FlagsRead(t: Texting, v: Value)
    ensures forall b: bool :: SaysFlag(t, v, b) <==> ToFlag(t, v) == Some(b)
  {
  }

  lemma NumbersRead(t: Texting, v: Value)
    ensures forall n: real :: SaysNumber(t, v, n) <==> ToNumber(t, v) == Some(n)
  {
  }

  lemma TextsRead(t: Texting, v: Value)
    ensures IsListing(v) <==> ToTexts(t, v).Some?
    ensures forall s: string :: Lists(v, s) <==> ToTexts(t, v).Some? && s in ToTexts(t, v).value
  {
  }

  /** A route meets an intent that asks for these. */
  ghost predicate MeetsAll(t: Texting, announced: Policy, constraints: Policy)
  {
    forall key :: key in constraints ==> key in announced && Meets(t, key, constraints[key], announced[key])
  }

  lemma CompliesMeets(t: Texting, announced: Policy, constraints: Policy)
    ensures Complies(t, announced, constraints) <==> MeetsAll(t, announced, constraints)
  {
    hide MatchPolicy, Meets;
    forall key | key in constraints && key in announced
      ensures MatchPolicy(t, key, constraints[key], announced[key]) <==> Meets(t, key, constraints[key], announced[key])
    {
      MatchMeets(t, key, constraints[key], announced[key]);
    }
  }

  /** The first entry that meets what is asked for. */
  ghost predicate FirstToMeet(t: Texting, entries: seq<Entry>, constraints: Policy, e: Entry, i: nat)
  {
    && i < |entries| && entries[i] == e && MeetsAll(t, e.policy, constraints)
    && forall j :: 0 <= j < i ==> !MeetsAll(t, entries[j].policy, constraints)
  }

  /** The route an intent is given meets everything it asks for, key by key, and every entry
      listed before it misses something; an intent refused is missed by every entry. */
  lemma {:induction false} RouteMeetsIntent(t: Texting, entries: seq<Entry>, constraints: Policy) returns (i: nat)
    ensures match FirstCompliant(t, entries, constraints)
            case Some(e) => FirstToMeet(t, entries, constraints, e, i)
            case None => forall j :: 0 <= j < |entries| ==> !MeetsAll(t, entries[j].policy, constraints)
  {
    hide Complies, MeetsAll;
    i := 0;
    if entries != [] {
      CompliesMeets(t, entries[0].policy, constraints);
      if !Complies(t, entries[0].policy, constraints) {
        i := RouteMeetsIntent(t, entries[1..], constraints);
        i := i + 1;
        forall j | 1 <= j < |entries| ensures entries[j] == entries[1..][j - 1] {
        }
      }
    }
  }

  /** Announcing a higher security level, or asking for a lower one, never loses a route. */
  lemma LevelsAreMonotone(t: Texting, announced: Policy, constraints: Policy, have: real, more: real, want: real, less: real)
    requires have <= more && less <= want && Complies(t, announced, constraints)
    requires "security_level" in announced && announced["security_level"] == Number(have)
    requires "security_level" in constraints && constraints["security_level"] == Number(want)
    ensures Complies(t, announced["security_level" := Number(more)], constraints["security_level" := Number(less)])
  {
    hide MatchPolicy, Meets;
    CompliesMeets(t, announced, constraints);
    LevelMeets(t, want, have);
    LevelMeets(t, less, more);
    CompliesMeets(t, announced["security_level" := Number(more)], constraints["security_level" := Number(less)]);
  }

  lemma LevelMeets(t: Texting, want: real, have: real)
    ensures Meets(t, "security_level", Number(want), Number(have)) <==> want <= have
  {
    assert SaysNumber(t, Number(want), want) && SaysNumber(t, Number(have), have);
  }

  /** What is wanted as a yes is met by a yes alone, and what is not wanted by either. */
  lemma WantedFlagMeans(t: Texting, want: bool, have: bool)
    ensures Meets(t, "requires_pii", Flag(want), Flag(have)) <==> (want ==> have)
  {
    assert SaysFlag(t, Flag(want), want) && SaysFlag(t, Flag(have), have);
  }

  // ---------------------------------------------------------------- where no order helps

  /** However a table with such a triple is sorted, the first of the three is beaten. */
  lemma NoOrderHelps(zs: seq<Entry>, a: Entry, b: Entry, c: Entry)
    requires Merges(a, b, c) && multiset(zs) == multiset{a, b, c}
    ensures zs != [] && exists x :: x in zs && LessCost(x, zs[0])
  {
    hide Merges, LessCost;
    MergesCycles(a, b, c);
    assert a in multiset(zs) && b in multiset(zs) && c in multiset(zs);
    assert zs[0] in multiset(zs);
  }

  /** Two priced announcements, dearer and cheaper, and one with a cost but no amount. */
  function Three(t: Texting, capability: string, cheap: string, dear: string): seq<Announcement>
  {
    [Announcement(capability, "1", 0.0, map[], dear, "m", "a", ""),
     Announcement(capability, "1", t.round(cheap), map[], "", "", "b", ""),
     Announcement(capability, "1", 0.0, map[], cheap, "m", "c", "")]
  }

  /** Three valid announcements for which the route is not the least: where rounding merges
      two amounts, an unparsed cost between them keeps the dearer one first, though the
      cheaper complies as well. */
  lemma RouteMissesCheapest(t: Texting, capability: string, cheap: string, dear: string)
    requires ValidCapability(t, capability) && !t.blank("1") && !t.blank("a") && !t.blank("b") && !t.blank("c")
    requires Parse(cheap).Ok? && Parse(dear).Ok? && t.round(cheap) == t.round(dear)
    requires Scaled(Parse(cheap).value, MAX_FRACTION_DIGITS) < Scaled(Parse(dear).value, MAX_FRACTION_DIGITS)
    ensures var list := Three(t, capability, cheap, dear);
            var entries := EntriesOf(t, list, t.normalize(capability));
            && AllValid(t, list) && |entries| == 3 && Merged(entries)
            && FirstCompliant(t, Sorted(entries), map[]) == Some(entries[0])
            && Complies(t, entries[2].policy, map[]) && Exact(entries[0]) && Exact(entries[2])
            && Nano(entries[2]) < Nano(entries[0]) && Cheaper(entries[2], entries[0])
  {
    hide Parse, Scaled, Cmp, ValidCapability;
    ParseAcceptsCanonical(cheap);
    ParseAcceptsCanonical(dear);
    var list := Three(t, capability, cheap, dear);
    var rounded := t.round(cheap);
    var b := Entry("a", rounded, map[], Some(Parse(dear).value), "");
    var c := Entry("b", rounded, map[], None, "");
    var a := Entry("c", rounded, map[], Some(Parse(cheap).value), "");
    ThreeEntries(t, capability, cheap, dear, [b, c, a]);
    assert Merges(a, b, c);
    MergesCycles(a, b, c);
    hide LessCost;
    LessCostIsTotal(b, c);
    LessCostIsTotal(c, a);
    SortedThree(b, c, a);
  }

  lemma ThreeEntries(t: Texting, capability: string, cheap: string, dear: string, entries: seq<Entry>)
    requires ValidCapability(t, capability) && !t.blank("1") && !t.blank("a") && !t.blank("b") && !t.blank("c")
    requires Parse(cheap).Ok? && Parse(dear).Ok? && cheap != "" && dear != "" && t.round(cheap) == t.round(dear)
    requires entries == [Entry("a", t.round(dear), map[], Some(Parse(dear).value), ""), Entry("b", t.round(cheap), map[], None, ""),
                         Entry("c", t.round(cheap), map[], Some(Parse(cheap).value), "")]
    ensures var list := Three(t, capability, cheap, dear);
            AllValid(t, list) && EntriesOf(t, list, t.normalize(capability)) == entries
  {
    hide Parse, ValidCapability;
    var list, k := Three(t, capability, cheap, dear), t.normalize(capability);
    assert list[..3] == list;
    assert list[..2][..1] == list[..1] && list[..1][..0] == [];
    assert EntriesOf(t, list[..1], k) == [entries[0]];
    assert EntriesOf(t, list[..2], k) == [entries[0], entries[1]];
  }

  lemma SortedThree(x: Entry, y: Entry, z: Entry)
    requires !LessCost(y, x) && !LessCost(z, y)
    ensures Sorted([x, y, z]) == [x, y, z]
  {
    hide LessCost;
    assert [x, y, z][1..] == [y, z] && [y, z][1..] == [z] && [z][1..] == [];
    assert Sorted([z]) == [z];
    assert Sorted([y, z]) == [y, z];
  }
}
