/** What the signed bytes forget: the order and repetition of set members always, the
    order of skills exactly when sort keys decide them. */
module Presentation {
  import opened Ordering
  import opened Attest
  import opened Decoding

  /** Two lists with the same members, however ordered and repeated. */
  ghost predicate SameSet(a: seq<string>, b: seq<string>) { forall x :: x in a <==> x in b }

  /** Two skills that differ only in how their lists are presented. */
  ghost predicate SameSkill(a: Skill, b: Skill)
  {
    a.id == b.id && a.name == b.name && SameSet(a.tags, b.tags) && SameSet(a.input, b.input) && SameSet(a.output, b.output)
  }

  lemma SameSkillSameNormal(a: Skill, b: Skill)
    requires SameSkill(a, b)
    ensures NormalSkill(a) == NormalSkill(b)
  {
    SetDecides(a.tags, b.tags);
    SetDecides(a.input, b.input);
    SetDecides(a.output, b.output);
  }

  // ---------------------------------------------------------------- skills

  /** Equal sort keys come only from skills that say the same. */
  ghost predicate KeysDecideSkills(skills: seq<Skill>)
  {
    forall i, j :: 0 <= i < |skills| && 0 <= j < |skills|
                   && SkillKey(NormalSkill(skills[i])) == SkillKey(NormalSkill(skills[j])) ==>
                   NormalSkill(skills[i]) == NormalSkill(skills[j])
  }

  function Ordered(skills: seq<Skill>): seq<Skill> { StableSort(NormalSkills(skills), SkillKey) }

  lemma {:induction false} NormalSkillsPermute(a: seq<Skill>, b: seq<Skill>)
    requires multiset(a) == multiset(b)
    ensures multiset(NormalSkills(a)) == multiset(NormalSkills(b))
    decreases |a|
  {
    if a == [] {
      assert |multiset(a)| == |a| && |multiset(b)| == |b|;
    } else {
      var j := Find(a, b);
      RestsAgree(a, b, j);
      hide NormalSkill, NormalSkills;
      NormalSkillsPermute(a[1..], b[..j] + b[j + 1..]);
      assert a[..0] + a[1..] == a[1..];
      NormalSkillsSplit(a, 0);
      NormalSkillsSplit(b, j);
    }
  }

  lemma NormalSkillsMiddle(x: seq<Skill>, h: Skill, y: seq<Skill>)
    ensures multiset(NormalSkills(x + [h] + y)) == multiset{NormalSkill(h)} + multiset(NormalSkills(x + y))
  {
    hide NormalSkill, NormalSkills;
    NormalSkillsJoin(x, [h]);
    NormalSkillsJoin(x + [h], y);
    NormalSkillsJoin(x, y);
    NormalSkillsOne(h);
    Middle(NormalSkills(x), NormalSkill(h), NormalSkills(y));
  }

  lemma NormalSkillsSplit(b: seq<Skill>, j: nat)
    requires j < |b|
    ensures multiset(NormalSkills(b)) == multiset{NormalSkill(b[j])} + multiset(NormalSkills(b[..j] + b[j + 1..]))
  {
    hide NormalSkill, NormalSkills;
    Around(b, j);
    NormalSkillsMiddle(b[..j], b[j], b[j + 1..]);
  }

  /** Permuting skills changes nothing while keys decide skills. */
  lemma SkillOrderIsForgotten(a: seq<Skill>, b: seq<Skill>)
    requires multiset(a) == multiset(b) && KeysDecideSkills(a)
    ensures Ordered(a) == Ordered(b)
  {
    NormalSkillsPermute(a, b);
    var n := NormalSkills(a);
    forall i, j | 0 <= i < |n| && 0 <= j < |n| && SkillKey(n[i]) == SkillKey(n[j]) ensures n[i] == n[j] {
      NormalSkillsAt(a, i);
      NormalSkillsAt(a, j);
    }
    SortForgetsOrder(n, NormalSkills(b), SkillKey);
  }

  /** And only then: two skills with one key and different contents come out in the order
      they went in. */
  lemma SkillOrderShows(skills: seq<Skill>, i: nat, j: nat)
    requires i < |skills| && j < |skills|
    requires SkillKey(NormalSkill(skills[i])) == SkillKey(NormalSkill(skills[j]))
    requires NormalSkill(skills[i]) != NormalSkill(skills[j])
    ensures exists other :: multiset(other) == multiset(skills) && Ordered(other) != Ordered(skills)
  {
    hide NormalSkill, SkillKey, StableSort;
    var rest := Without(skills, i, j);
    var k := SkillKey(NormalSkill(skills[i]));
    var ab, ba := [skills[i], skills[j]] + rest, [skills[j], skills[i]] + rest;
    TwoInFront(skills[i], skills[j], rest);
    SwappedDiffer(skills[i], skills[j], rest, k);
    hide Ordered;
    var other := if Ordered(ab) == Ordered(skills) then ba else ab;
    assert multiset(other) == multiset(skills) && Ordered(other) != Ordered(skills);
  }

  lemma SwappedDiffer(a: Skill, b: Skill, rest: seq<Skill>, k: string)
    requires SkillKey(NormalSkill(a)) == k && SkillKey(NormalSkill(b)) == k && NormalSkill(a) != NormalSkill(b)
    ensures Ordered([a, b] + rest) != Ordered([b, a] + rest)
  {
    hide Ordered, SkillKey, NormalSkill;
    FirstWithKey(a, b, rest, k);
    FirstWithKey(b, a, rest, k);
  }

  lemma TwoInFront(a: Skill, b: Skill, rest: seq<Skill>)
    ensures multiset([a, b] + rest) == multiset{a, b} + multiset(rest)
    ensures multiset([b, a] + rest) == multiset{a, b} + multiset(rest)
  {
  }

  ghost function Without(skills: seq<Skill>, i: nat, j: nat): (rest: seq<Skill>)
    requires i < |skills| && j < |skills| && i != j
    ensures multiset(skills) == multiset{skills[i], skills[j]} + multiset(rest)
  {
    var once := skills[..i] + skills[i + 1..];
    var k := if j < i then j else j - 1;
    RemoveAt(skills, i);
    RemoveAt(once, k);
    once[..k] + once[k + 1..]
  }

  lemma FirstWithKey(a: Skill, b: Skill, rest: seq<Skill>, k: string)
    requires SkillKey(NormalSkill(a)) == k && SkillKey(NormalSkill(b)) == k
    ensures var w := WithKey(Ordered([a, b] + rest), SkillKey, k);
            |w| >= 2 && w[0] == NormalSkill(a) && w[1] == NormalSkill(b)
  {
    hide NormalSkill, SkillKey, StableSort;
    var n := NormalSkills([a, b] + rest);
    SortIsStable(n, SkillKey, k);
    NormalSkillsAt([a, b] + rest, 0);
    NormalSkillsAt([a, b] + rest, 1);
    assert WithKey(n, SkillKey, k) == [n[0]] + WithKey(n[1..], SkillKey, k);
    assert WithKey(n[1..], SkillKey, k) == [n[1]] + WithKey(n[1..][1..], SkillKey, k);
  }

  /** The exact condition for the signed bytes of a card to forget its skills' order. */
  lemma SkillOrderForgottenIffKeysDecide(at: string, card: Card)
    ensures KeysDecideSkills(card.skills) <==>
              forall other :: multiset(other) == multiset(card.skills) ==>
                Encode(CardStatement(at, card.(skills := other))) == Encode(CardStatement(at, card))
  {
    hide Ordered, Encode, KeysDecideSkills;
    forall other ensures Encode(CardStatement(at, card.(skills := other))) == Encode(CardStatement(at, card))
                         <==> Ordered(other) == Ordered(card.skills) {
      SkillsDecideBytes(at, card, other);
    }
    if KeysDecideSkills(card.skills) {
      forall other | multiset(other) == multiset(card.skills) ensures Ordered(other) == Ordered(card.skills) {
        SkillOrderIsForgotten(card.skills, other);
      }
    } else {
      var i, j := UndecidedPair(card.skills);
      SkillOrderShows(card.skills, i, j);
    }
  }

  lemma UndecidedPair(skills: seq<Skill>) returns (i: nat, j: nat)
    requires !KeysDecideSkills(skills)
    ensures i < |skills| && j < |skills|
    ensures SkillKey(NormalSkill(skills[i])) == SkillKey(NormalSkill(skills[j]))
    ensures NormalSkill(skills[i]) != NormalSkill(skills[j])
  {
    hide SkillKey, NormalSkill;
    i, j :| 0 <= i < |skills| && 0 <= j < |skills|
            && SkillKey(NormalSkill(skills[i])) == SkillKey(NormalSkill(skills[j]))
            && NormalSkill(skills[i]) != NormalSkill(skills[j]);
  }

  lemma SkillsDecideBytes(at: string, card: Card, other: seq<Skill>)
    ensures Encode(CardStatement(at, card.(skills := other))) == Encode(CardStatement(at, card))
            <==> Ordered(other) == Ordered(card.skills)
  {
    EncodingIsUnique(CardStatement(at, card.(skills := other)), CardStatement(at, card));
    hide Encode, SortedUnique, StableSort, NormalSkills;
  }

  /** Distinct identifiers without the separator are enough. */
  lemma DistinctIdsDecide(skills: seq<Skill>)
    requires forall i :: 0 <= i < |skills| ==> NUL[0] !in skills[i].id
    requires forall i, j :: 0 <= i < j < |skills| ==> skills[i].id != skills[j].id
    ensures KeysDecideSkills(skills)
  {
    forall i, j | 0 <= i < |skills| && 0 <= j < |skills|
                  && SkillKey(NormalSkill(skills[i])) == SkillKey(NormalSkill(skills[j]))
      ensures NormalSkill(skills[i]) == NormalSkill(skills[j])
    {
      KeyStartsWithId(skills[i], skills[j]);
    }
  }

  lemma KeyStartsWithId(a: Skill, b: Skill)
    requires NUL[0] !in a.id && NUL[0] !in b.id && SkillKey(NormalSkill(a)) == SkillKey(NormalSkill(b))
    ensures a.id == b.id
  {
    var x := KeyRest(a);
    var y := KeyRest(b);
    assert NUL == [NUL[0]];
    SplitsOnce(NUL[0], a.id, x, b.id, y);
  }

  lemma KeyRest(a: Skill) returns (rest: string)
    ensures SkillKey(NormalSkill(a)) == a.id + (NUL + rest)
  {
    hide SortedUnique;
    var n := NormalSkill(a);
    var parts := [n.id, n.name, Join(n.tags), Join(n.input), Join(n.output)];
    rest := Join(parts[1..]);
    assert SkillKey(n) == parts[0] + NUL + rest;
  }

  /** The key is not injective: moving a word from the tags to the input modes keeps it. */
  lemma KeysCollide()
    ensures var a, b := Skill("s", "n", ["x", "y"], ["z"], []), Skill("s", "n", ["x"], ["y", "z"], []);
            && SkillKey(NormalSkill(a)) == SkillKey(NormalSkill(b)) && NormalSkill(a) != NormalSkill(b)
            && Ordered([a, b]) != Ordered([b, a])
  {
    var a, b := Skill("s", "n", ["x", "y"], ["z"], []), Skill("s", "n", ["x"], ["y", "z"], []);
    SmallSets();
    assert NormalSkill(a) == a && NormalSkill(b) == b;
    CollidingKeys();
    hide SkillKey, NormalSkill, Ordered;
    FirstWithKey(a, b, [], SkillKey(a));
    FirstWithKey(b, a, [], SkillKey(a));
    assert [a, b] + [] == [a, b] && [b, a] + [] == [b, a];
  }

  lemma CollidingKeys()
    ensures SkillKey(Skill("s", "n", ["x", "y"], ["z"], [])) == SkillKey(Skill("s", "n", ["x"], ["y", "z"], []))
  {
    var xy, yz, z, x, e := Join(["x", "y"]), Join(["y", "z"]), Join(["z"]), Join(["x"]), Join([]);
    assert ["x", "y"][1..] == ["y"] && ["y", "z"][1..] == ["z"];
    assert xy == "x" + NUL + "y" && yz == "y" + NUL + "z" && z == "z" && x == "x" && e == "";
    JoinFive("s", "n", xy, z, e);
    JoinFive("s", "n", x, yz, e);
    assert "s" + NUL + ("n" + NUL + (xy + NUL + (z + NUL + e))) == "s" + NUL + ("n" + NUL + (x + NUL + (yz + NUL + e)));
  }

  lemma JoinFive(a: string, b: string, c: string, d: string, e: string)
    ensures Join([a, b, c, d, e]) == a + NUL + (b + NUL + (c + NUL + (d + NUL + e)))
  {
    assert [a, b, c, d, e][1..] == [b, c, d, e] && [b, c, d, e][1..] == [c, d, e] && [c, d, e][1..] == [d, e]
           && [d, e][1..] == [e];
    assert Join([d, e]) == d + NUL + e;
    assert Join([c, d, e]) == c + NUL + Join([d, e]);
    assert Join([b, c, d, e]) == b + NUL + Join([c, d, e]);
  }

  lemma SmallSets()
    ensures SortedUnique(["x", "y"]) == ["x", "y"] && SortedUnique(["y", "z"]) == ["y", "z"]
    ensures SortedUnique(["x"]) == ["x"] && SortedUnique(["z"]) == ["z"] && SortedUnique([]) == []
  {
    PairSorts("x", "y");
    PairSorts("y", "z");
    OneSorts("x");
    OneSorts("z");
  }

  lemma OneSorts(a: string)
    ensures SortedUnique([a]) == [a]
  {
    assert [a][..0] == [];
    assert Dedup([a]) == [a];
    assert [a][1..] == [];
    assert StableSort([], Itself) == [];
  }

  lemma PairSorts(a: string, b: string)
    requires Before(a, b)
    ensures SortedUnique([a, b]) == [a, b]
  {
    BeforeIsTotal(a, b);
    assert [a, b][..1] == [a] && [a][..0] == [];
    assert Dedup([a]) == [a];
    assert Dedup([a, b]) == [a, b];
    assert [a, b][1..] == [b];
    assert StableSort([b], Itself) == [b];
  }

  // ---------------------------------------------------------------- sets

  /** The sorted set says exactly which members a list has. */
  lemma SortedUniqueDecides(a: seq<string>, b: seq<string>)
    ensures SortedUnique(a) == SortedUnique(b) <==> SameSet(a, b)
  {
    if SameSet(a, b) {
      SetDecides(a, b);
    } else {
      SortedUniqueIsSet(a);
      SortedUniqueIsSet(b);
    }
  }

  /** Two cards that differ only in how their sets are written. */
  ghost predicate SameCard(a: Card, b: Card)
  {
    && a.(capabilities := [], skills := [], currencies := [], modes := [])
       == b.(capabilities := [], skills := [], currencies := [], modes := [])
    && SameSet(a.capabilities, b.capabilities) && SameSet(a.currencies, b.currencies) && SameSet(a.modes, b.modes)
    && |a.skills| == |b.skills| && forall i :: 0 <= i < |a.skills| ==> SameSkill(a.skills[i], b.skills[i])
  }

  lemma {:induction false} SameSkillsSameNormal(a: seq<Skill>, b: seq<Skill>)
    requires |a| == |b| && forall i :: 0 <= i < |a| ==> SameSkill(a[i], b[i])
    ensures NormalSkills(a) == NormalSkills(b)
  {
    hide SameSkill, NormalSkill;
    if a != [] {
      SameSkillSameNormal(a[0], b[0]);
      SameSkillsSameNormal(a[1..], b[1..]);
    }
  }

  lemma SetsAreForgotten(at: string, a: Card, b: Card)
    requires SameCard(a, b)
    ensures Encode(CardStatement(at, a)) == Encode(CardStatement(at, b))
  {
    SetDecides(a.capabilities, b.capabilities);
    SetDecides(a.currencies, b.currencies);
    SetDecides(a.modes, b.modes);
    SameSkillsSameNormal(a.skills, b.skills);
    hide Layout, SortedUnique, StableSort, NormalSkills, SameSet, SameSkill;
  }

  /** Two cards are signed alike exactly when every single field is the same, the sets are
      the same sets, and the skills, each with its own sets, come in the same order. */
  lemma CardsSignedAlike(at: string, a: Card, b: Card)
    ensures Encode(CardStatement(at, a)) == Encode(CardStatement(at, b)) <==>
              && a.(capabilities := [], skills := [], currencies := [], modes := [])
                 == b.(capabilities := [], skills := [], currencies := [], modes := [])
              && SameSet(a.capabilities, b.capabilities) && SameSet(a.currencies, b.currencies) && SameSet(a.modes, b.modes)
              && Ordered(a.skills) == Ordered(b.skills)
  {
    EncodingIsUnique(CardStatement(at, a), CardStatement(at, b));
    SortedUniqueDecides(a.capabilities, b.capabilities);
    SortedUniqueDecides(a.currencies, b.currencies);
    SortedUniqueDecides(a.modes, b.modes);
    hide Encode, SortedUnique, SameSet, StableSort, NormalSkills;
  }

  /** A skill in normal form is the skill, each of its sets strictly ascending. */
  lemma NormalSkillMeans(s: Skill)
    ensures NormalSkill(s).id == s.id && NormalSkill(s).name == s.name
    ensures SameSet(NormalSkill(s).tags, s.tags) && SameSet(NormalSkill(s).input, s.input) && SameSet(NormalSkill(s).output, s.output)
    ensures Ascends(NormalSkill(s).tags) && Ascends(NormalSkill(s).input) && Ascends(NormalSkill(s).output)
  {
    SortedUniqueIsSet(s.tags);
    SortedUniqueIsSet(s.input);
    SortedUniqueIsSet(s.output);
    hide SortedUnique;
  }

  ghost predicate Ascends(xs: seq<string>) { forall i, j :: 0 <= i < j < |xs| ==> Before(xs[i], xs[j]) }

  lemma {:induction false} BeforeExtends(x: string, y: string, u: string, v: string)
    requires Before(x, y) && NUL[0] !in x && NUL[0] !in y
    ensures Before(x + (NUL + u), y + (NUL + v))
  {
    assert y == [y[0]] + y[1..];
    if x == "" {
      assert NUL[0] < y[0] by { assert y[0] in y; }
    } else {
      assert x == [x[0]] + x[1..];
      var a, b := x + (NUL + u), y + (NUL + v);
      assert a[0] == x[0] && a[1..] == x[1..] + (NUL + u) && b[0] == y[0] && b[1..] == y[1..] + (NUL + v);
      if x[0] == y[0] { BeforeExtends(x[1..], y[1..], u, v); }
    }
  }

  /** Skills are written in the order of their identifiers, where these hold no NUL. */
  lemma KeysFollowIds(a: Skill, b: Skill)
    requires Before(a.id, b.id) && NUL[0] !in a.id && NUL[0] !in b.id
    ensures Before(SkillKey(NormalSkill(a)), SkillKey(NormalSkill(b)))
  {
    hide SkillKey, NormalSkill, Before;
    var x := KeyRest(a);
    var y := KeyRest(b);
    BeforeExtends(a.id, b.id, x, y);
  }

  // ---------------------------------------------------------------- listings

  /** Two offers with the same terms, whatever order and repetition their sets have. */
  ghost predicate SameTerms(a: Offer, b: Offer)
  {
    && a.(capabilities := [], modes := []) == b.(capabilities := [], modes := [])
    && SameSet(a.capabilities, b.capabilities) && SameSet(a.modes, b.modes)
  }

  /** A retry is recognised by comparing digests of the canonical bytes. */
  predicate SameListing(digest: string -> string, a: Offer, b: Offer, at: string)
  {
    digest(Encode(OfferStatement(at, a))) == digest(Encode(OfferStatement(at, b)))
  }

  ghost predicate CollisionFree(digest: string -> string)
  {
    forall x, y :: digest(x) == digest(y) ==> x == y
  }

  lemma SameListingIsSameTerms(digest: string -> string, a: Offer, b: Offer, at: string)
    requires CollisionFree(digest)
    ensures SameListing(digest, a, b, at) <==> SameTerms(a, b)
  {
    EncodingIsUnique(OfferStatement(at, a), OfferStatement(at, b));
    SortedUniqueDecides(a.capabilities, b.capabilities);
    SortedUniqueDecides(a.modes, b.modes);
    hide Encode, SortedUnique, SameSet;
  }
}
