/** The canonical signed encoding of cards, offers and probe reports. A text stands for
    its bytes. The encoder is proved to write exactly the canonical form, and the decoder
    shows that the form can be read back in one way only. */
module Attest {
  import Money
  import opened Ordering

  const CANONICAL_FORM := "vtessera/attest/v1"

  datatype Skill = Skill(id: string, name: string, tags: seq<string>, input: seq<string>, output: seq<string>)

  datatype Card = Card(
    agent: string,
    name: string,
    description: string,
    version: string,
    url: string,
    capabilities: seq<string>,
    skills: seq<Skill>,
    probeTarget: string,
    currencies: seq<string>,
    modes: seq<string>)

  datatype Offer = Offer(
    id: string,
    seller: string,
    description: string,
    direction: string,
    capabilities: seq<string>,
    mint: string,
    scale: string,
    amount: string,
    unitAmount: string,
    modes: seq<string>)

  datatype ProbeResult = ProbeResult(capability: string, status: string, detail: string)

  datatype Probe = Probe(agent: string, target: string, checkedAt: string, results: seq<ProbeResult>)

  /** A statement with the timestamp text it is signed under. */
  datatype Statement =
    | CardStatement(at: string, card: Card)
    | OfferStatement(at: string, offer: Offer)
    | ProbeStatement(at: string, probe: Probe)

  // ---------------------------------------------------------------- normal form

  function NormalSkill(s: Skill): Skill
  {
    s.(tags := SortedUnique(s.tags), input := SortedUnique(s.input), output := SortedUnique(s.output))
  }

  function NormalSkills(skills: seq<Skill>): (ns: seq<Skill>)
    ensures |ns| == |skills|
  {
    if skills == [] then [] else [NormalSkill(skills[0])] + NormalSkills(skills[1..])
  }

  lemma NormalSkillsOne(s: Skill)
    ensures NormalSkills([s]) == [NormalSkill(s)]
  {
    hide NormalSkill;
    assert [s][1..] == [];
  }

  lemma {:induction false} NormalSkillsAt(skills: seq<Skill>, i: nat)
    requires i < |skills|
    ensures NormalSkills(skills)[i] == NormalSkill(skills[i])
  {
    hide NormalSkill;
    if i > 0 { NormalSkillsAt(skills[1..], i - 1); }
  }

  lemma {:induction false} NormalSkillsJoin(x: seq<Skill>, y: seq<Skill>)
    ensures NormalSkills(x + y) == NormalSkills(x) + NormalSkills(y)
  {
    hide NormalSkill;
    if x == [] {
      assert x + y == y;
    } else {
      NormalSkillsJoin(x[1..], y);
      assert (x + y)[1..] == x[1..] + y;
    }
  }

  const NUL := "\U{0000}"

  function Join(parts: seq<string>): string
  {
    if parts == [] then ""
    else if |parts| == 1 then parts[0]
    else parts[0] + NUL + Join(parts[1..])
  }

  /** The key skills are sorted by, of a skill already in normal form. */
  function SkillKey(s: Skill): string
  {
    Join([s.id, s.name, Join(s.tags), Join(s.input), Join(s.output)])
  }

  function ResultKey(r: ProbeResult): string { r.capability }

  /** What the encoding says: sets sorted, skills and results sorted. */
  function Normal(st: Statement): Statement
  {
    match st
    case CardStatement(at, c) =>
      CardStatement(at, c.(capabilities := SortedUnique(c.capabilities),
                           skills := StableSort(NormalSkills(c.skills), SkillKey),
                           currencies := SortedUnique(c.currencies),
                           modes := SortedUnique(c.modes)))
    case OfferStatement(at, o) =>
      OfferStatement(at, o.(capabilities := SortedUnique(o.capabilities), modes := SortedUnique(o.modes)))
    case ProbeStatement(at, p) => ProbeStatement(at, p.(results := StableSort(p.results, ResultKey)))
  }

  // ---------------------------------------------------------------- layout

  /** Parts one after another. */
  function Cat(parts: seq<string>): string
  {
    if parts == [] then "" else parts[0] + Cat(parts[1..])
  }

  lemma Associates(a: string, b: string, c: string)
    ensures (a + b) + c == a + (b + c)
  {
  }

  lemma {:induction false} CatExtends(start: string, parts: seq<string>, p: string)
    ensures start + Cat(parts) + p == start + Cat(parts + [p])
    decreases |parts|
  {
    if parts == [] {
      assert Cat([p]) == p + Cat([]);
    } else {
      CatExtends(start + parts[0], parts[1..], p);
      assert (parts + [p])[1..] == parts[1..] + [p];
      Associates(start, parts[0], Cat(parts[1..]));
      Associates(start, parts[0], Cat(parts[1..] + [p]));
    }
  }

  function Digits(n: nat): string { Money.FormatUint(n) }

  function Field(name: string, value: string): string { name + ":" + Digits(|value|) + ":" + value + "\n" }

  function Count(name: string, n: nat): string { name + ".count:" + Digits(n) + "\n" }

  function Item(name: string, i: nat): string { name + "." + Digits(i) }

  function Items(name: string, values: seq<string>): (parts: seq<string>)
    ensures |parts| == |values| && forall i :: 0 <= i < |parts| ==> parts[i] == Field(Item(name, i), values[i])
  {
    seq(|values|, i requires 0 <= i < |values| => Field(Item(name, i), values[i]))
  }

  function List(name: string, values: seq<string>): string { Count(name, |values|) + Cat(Items(name, values)) }

  function SkillParts(prefix: string, s: Skill): seq<string>
  {
    [Field(prefix + ".id", s.id), Field(prefix + ".name", s.name), List(prefix + ".tags", s.tags),
     List(prefix + ".inputModes", s.input), List(prefix + ".outputModes", s.output)]
  }

  function SkillTexts(name: string, skills: seq<Skill>): (parts: seq<string>)
    ensures |parts| == |skills| && forall i :: 0 <= i < |parts| ==> parts[i] == Cat(SkillParts(Item(name, i), skills[i]))
  {
    seq(|skills|, i requires 0 <= i < |skills| => Cat(SkillParts(Item(name, i), skills[i])))
  }

  function Skills(name: string, skills: seq<Skill>): string { Count(name, |skills|) + Cat(SkillTexts(name, skills)) }

  function ResultParts(prefix: string, r: ProbeResult): seq<string>
  {
    [Field(prefix + ".capability", r.capability), Field(prefix + ".status", r.status), Field(prefix + ".detail", r.detail)]
  }

  function ResultTexts(name: string, results: seq<ProbeResult>): (parts: seq<string>)
    ensures |parts| == |results| && forall i :: 0 <= i < |parts| ==> parts[i] == Cat(ResultParts(Item(name, i), results[i]))
  {
    seq(|results|, i requires 0 <= i < |results| => Cat(ResultParts(Item(name, i), results[i])))
  }

  function Results(name: string, results: seq<ProbeResult>): string
  {
    Count(name, |results|) + Cat(ResultTexts(name, results))
  }

  function Header(kind: string, at: string): string
  {
    CANONICAL_FORM + "\n" + "kind:" + kind + "\n" + Field("signedAt", at)
  }

  function CardParts(c: Card): seq<string>
  {
    [Field("agent", c.agent), Field("name", c.name), Field("description", c.description),
     Field("version", c.version), Field("url", c.url), List("capabilities", c.capabilities),
     Skills("skills", c.skills), Field("probeTarget", c.probeTarget),
     List("currencies", c.currencies), List("settlementModes", c.modes)]
  }

  function OfferParts(o: Offer): seq<string>
  {
    [Field("offer", o.id), Field("seller", o.seller), Field("description", o.description),
     Field("direction", o.direction), List("capabilities", o.capabilities), Field("mint", o.mint),
     Field("scale", o.scale), Field("amountBaseUnits", o.amount), Field("unitAmount", o.unitAmount),
     List("settlementModes", o.modes)]
  }

  function ProbeParts(p: Probe): seq<string>
  {
    [Field("agent", p.agent), Field("target", p.target), Field("checkedAt", p.checkedAt), Results("results", p.results)]
  }

  /** The layout of a statement as it stands. */
  function Layout(st: Statement): string
  {
    match st
    case CardStatement(at, c) => Header("agent-card", at) + Cat(CardParts(c))
    case OfferStatement(at, o) => Header("offer", at) + Cat(OfferParts(o))
    case ProbeStatement(at, p) => Header("probe", at) + Cat(ProbeParts(p))
  }

  /** The bytes that are signed. */
  function Encode(st: Statement): string { Layout(Normal(st)) }

  // ---------------------------------------------------------------- the encoder

  class Encoder {
    var b: string

    constructor (kind: string, at: string)
      ensures b == Header(kind, at)
    {
      b := CANONICAL_FORM + "\n" + "kind:" + kind + "\n";
      new;
      this.Write("signedAt", at);
    }

    method Write(name: string, value: string)
      modifies this
      ensures b == old(b) + Field(name, value)
    {
      b := b + name;
      b := b + ":";
      b := b + Digits(|value|);
      b := b + ":";
      b := b + value;
      b := b + "\n";
      assert b == old(b) + Field(name, value);
    }

    method WriteCount(name: string, n: nat)
      modifies this
      ensures b == old(b) + Count(name, n)
    {
      b := b + name;
      b := b + ".count:";
      b := b + Digits(n);
      b := b + "\n";
      assert b == old(b) + Count(name, n);
    }

    method WriteList(name: string, values: seq<string>)
      modifies this
      ensures b == old(b) + List(name, values)
    {
      hide Field, Count;
      WriteCount(name, |values|);
      ghost var start, parts := b, Items(name, values);
      for i := 0 to |values|
        invariant b == start + Cat(parts[..i])
      {
        Write(Item(name, i), values[i]);
        CatExtends(start, parts[..i], parts[i]);
        assert parts[..i + 1] == parts[..i] + [parts[i]];
      }
      assert parts[..|values|] == parts;
      Associates(old(b), Count(name, |values|), Cat(parts));
    }

    /** Keys and sorted fields are computed once a skill, then sorted, then written. */
    method WriteSkills(name: string, skills: seq<Skill>)
      modifies this
      ensures b == old(b) + Skills(name, StableSort(NormalSkills(skills), SkillKey))
    {
      hide Count, StableSort, SkillKey, SkillParts, Item;
      var prepared := Prepare(skills);
      var ordered := StableSort(prepared, SkillKey);
      WriteCount(name, |ordered|);
      ghost var start, parts := b, SkillTexts(name, ordered);
      for i := 0 to |ordered|
        invariant b == start + Cat(parts[..i])
      {
        WriteSkill(Item(name, i), ordered[i]);
        CatExtends(start, parts[..i], parts[i]);
        assert parts[..i + 1] == parts[..i] + [parts[i]];
      }
      assert parts[..|ordered|] == parts;
      Associates(old(b), Count(name, |ordered|), Cat(parts));
    }

    method WriteSkill(prefix: string, s: Skill)
      modifies this
      ensures b == old(b) + Cat(SkillParts(prefix, s))
    {
      hide Field, List;
      ghost var start, parts := b, SkillParts(prefix, s);
      Write(prefix + ".id", s.id);
      Write(prefix + ".name", s.name);
      WriteList(prefix + ".tags", s.tags);
      WriteList(prefix + ".inputModes", s.input);
      WriteList(prefix + ".outputModes", s.output);
      CatOfFive(start, parts);
    }

    method WriteResults(name: string, results: seq<ProbeResult>)
      modifies this
      ensures b == old(b) + Results(name, StableSort(results, ResultKey))
    {
      hide Count, StableSort, ResultParts, Item;
      var ordered := StableSort(results, ResultKey);
      WriteCount(name, |ordered|);
      ghost var start, parts := b, ResultTexts(name, ordered);
      for i := 0 to |ordered|
        invariant b == start + Cat(parts[..i])
      {
        WriteResult(Item(name, i), ordered[i]);
        CatExtends(start, parts[..i], parts[i]);
        assert parts[..i + 1] == parts[..i] + [parts[i]];
      }
      assert parts[..|ordered|] == parts;
      Associates(old(b), Count(name, |ordered|), Cat(parts));
    }

    method WriteResult(prefix: string, r: ProbeResult)
      modifies this
      ensures b == old(b) + Cat(ResultParts(prefix, r))
    {
      hide Field;
      ghost var start, parts := b, ResultParts(prefix, r);
      Write(prefix + ".capability", r.capability);
      Write(prefix + ".status", r.status);
      Write(prefix + ".detail", r.detail);
      CatOfThree(start, parts);
    }
  }

  /** Appending parts in turn is appending them together. */
  lemma CatOfThree(start: string, parts: seq<string>)
    requires |parts| == 3
    ensures start + parts[0] + parts[1] + parts[2] == start + Cat(parts)
  {
    assert parts[..0] == [] && parts[..1] == [] + [parts[0]] && parts[..2] == parts[..1] + [parts[1]]
           && parts == parts[..2] + [parts[2]];
    assert start + Cat([]) == start;
    CatExtends(start, [], parts[0]);
    CatExtends(start, parts[..1], parts[1]);
    CatExtends(start, parts[..2], parts[2]);
  }

  lemma CatOfFive(start: string, parts: seq<string>)
    requires |parts| == 5
    ensures start + parts[0] + parts[1] + parts[2] + parts[3] + parts[4] == start + Cat(parts)
  {
    CatOfThree(start, parts[..3]);
    assert parts[..4] == parts[..3] + [parts[3]] && parts == parts[..4] + [parts[4]];
    CatExtends(start, parts[..3], parts[3]);
    CatExtends(start, parts[..4], parts[4]);
  }

  lemma CatOfTen(start: string, parts: seq<string>)
    requires |parts| == 10
    ensures start + parts[0] + parts[1] + parts[2] + parts[3] + parts[4] + parts[5] + parts[6] + parts[7] + parts[8] + parts[9]
            == start + Cat(parts)
  {
    CatOfFive(start, parts[..5]);
    assert parts[..6] == parts[..5] + [parts[5]] && parts[..7] == parts[..6] + [parts[6]]
           && parts[..8] == parts[..7] + [parts[7]] && parts[..9] == parts[..8] + [parts[8]] && parts == parts[..9] + [parts[9]];
    CatExtends(start, parts[..5], parts[5]);
    CatExtends(start, parts[..6], parts[6]);
    CatExtends(start, parts[..7], parts[7]);
    CatExtends(start, parts[..8], parts[8]);
    CatExtends(start, parts[..9], parts[9]);
  }

  method Prepare(skills: seq<Skill>) returns (prepared: seq<Skill>)
    ensures prepared == NormalSkills(skills)
  {
    hide SortedUnique, NormalSkills;
    prepared := [];
    for i := 0 to |skills|
      invariant prepared == NormalSkills(skills[..i])
    {
      var tags := SortedUniqueOf(skills[i].tags);
      var input := SortedUniqueOf(skills[i].input);
      var output := SortedUniqueOf(skills[i].output);
      prepared := prepared + [skills[i].(tags := tags, input := input, output := output)];
      NormalSkillsOne(skills[i]);
      NormalSkillsJoin(skills[..i], [skills[i]]);
      assert skills[..i + 1] == skills[..i] + [skills[i]];
    }
    assert skills[..|skills|] == skills;
  }

  method CardBytes(card: Card, at: string) returns (bytes: string)
    ensures bytes == Encode(CardStatement(at, card))
  {
    hide Field, List, Skills, Header, SortedUnique, StableSort, NormalSkills, Cat;
    var enc := new Encoder("agent-card", at);
    enc.Write("agent", card.agent);
    enc.Write("name", card.name);
    enc.Write("description", card.description);
    enc.Write("version", card.version);
    enc.Write("url", card.url);
    var capabilities := SortedUniqueOf(card.capabilities);
    enc.WriteList("capabilities", capabilities);
    enc.WriteSkills("skills", card.skills);
    enc.Write("probeTarget", card.probeTarget);
    var currencies := SortedUniqueOf(card.currencies);
    enc.WriteList("currencies", currencies);
    var modes := SortedUniqueOf(card.modes);
    enc.WriteList("settlementModes", modes);
    bytes := enc.b;
    CatOfTen(Header("agent-card", at), CardParts(Normal(CardStatement(at, card)).card));
  }

  method OfferBytes(offer: Offer, at: string) returns (bytes: string)
    ensures bytes == Encode(OfferStatement(at, offer))
  {
    hide Field, List, Header, SortedUnique, Cat;
    var enc := new Encoder("offer", at);
    enc.Write("offer", offer.id);
    enc.Write("seller", offer.seller);
    enc.Write("description", offer.description);
    enc.Write("direction", offer.direction);
    var capabilities := SortedUniqueOf(offer.capabilities);
    enc.WriteList("capabilities", capabilities);
    enc.Write("mint", offer.mint);
    enc.Write("scale", offer.scale);
    enc.Write("amountBaseUnits", offer.amount);
    enc.Write("unitAmount", offer.unitAmount);
    var modes := SortedUniqueOf(offer.modes);
    enc.WriteList("settlementModes", modes);
    bytes := enc.b;
    CatOfTen(Header("offer", at), OfferParts(Normal(OfferStatement(at, offer)).offer));
  }

  method ProbeBytes(probe: Probe, at: string) returns (bytes: string)
    ensures bytes == Encode(ProbeStatement(at, probe))
  {
    hide Field, Results, Header, StableSort;
    var enc := new Encoder("probe", at);
    enc.Write("agent", probe.agent);
    enc.Write("target", probe.target);
    enc.Write("checkedAt", probe.checkedAt);
    enc.WriteResults("results", probe.results);
    bytes := enc.b;
    ghost var parts := ProbeParts(Normal(ProbeStatement(at, probe)).probe);
    CatOfThree(Header("probe", at), parts[..3]);
    CatExtends(Header("probe", at), parts[..3], parts[3]);
    assert parts == parts[..3] + [parts[3]];
  }
}
