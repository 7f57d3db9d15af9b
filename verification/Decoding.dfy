/** Reading the canonical form back. The decoder recovers every statement from its bytes,
    whatever its texts contain, so no two statements share a form. */
module Decoding {
  import opened Money
  import opened Attest

  datatype Parsed<+T> = Bad | Got(value: T, rest: string)

  // ---------------------------------------------------------------- pieces

  function Literal(text: string, input: string): Parsed<string>
  {
    if text <= input then Got(text, input[|text|..]) else Bad
  }

  /** How many digits the input starts with. */
  function Lead(input: string): (k: nat)
    ensures k <= |input|
  {
    if input == "" || !IsDigit(input[0]) then 0 else 1 + Lead(input[1..])
  }

  lemma {:induction false} LeadIsDigits(input: string)
    ensures AllDigits(input[..Lead(input)])
  {
    if input != "" && IsDigit(input[0]) {
      LeadIsDigits(input[1..]);
      assert input[..Lead(input)] == [input[0]] + input[1..][..Lead(input[1..])];
    }
  }

  function Number(input: string): Parsed<nat>
  {
    LeadIsDigits(input);
    if Lead(input) == 0 then Bad else Got(Num(input[..Lead(input)]), input[Lead(input)..])
  }

  function ReadField(name: string, input: string): Parsed<string>
  {
    var head := Literal(name + ":", input);
    if head.Bad? then Bad
    else
      var size := Number(head.rest);
      if size.Bad? then Bad
      else
        var colon := Literal(":", size.rest);
        if colon.Bad? || |colon.rest| < size.value then Bad
        else
          var end := Literal("\n", colon.rest[size.value..]);
          if end.Bad? then Bad else Got(colon.rest[..size.value], end.rest)
  }

  function ReadCount(name: string, input: string): Parsed<nat>
  {
    var head := Literal(name + ".count:", input);
    if head.Bad? then Bad
    else
      var n := Number(head.rest);
      if n.Bad? then Bad
      else
        var end := Literal("\n", n.rest);
        if end.Bad? then Bad else Got(n.value, end.rest)
  }

  // ---------------------------------------------------------------- pieces read back

  lemma LiteralReads(text: string, rest: string)
    ensures Literal(text, text + rest) == Got(text, rest)
  {
  }

  lemma {:induction false} LeadOf(digits: string, rest: string)
    requires AllDigits(digits) && (rest == "" || !IsDigit(rest[0]))
    ensures Lead(digits + rest) == |digits|
  {
    if digits == "" {
      assert digits + rest == rest;
    } else {
      assert (digits + rest)[1..] == digits[1..] + rest;
      LeadOf(digits[1..], rest);
    }
  }

  lemma NumberReads(n: nat, rest: string)
    requires rest != "" && !IsDigit(rest[0])
    ensures Number(Digits(n) + rest) == Got(n, rest)
  {
    LeadOf(Digits(n), rest);
    assert (Digits(n) + rest)[..|Digits(n)|] == Digits(n);
  }

  /** A field reads back whole: the length prefix walks over whatever the value holds. */
  lemma FieldReads(name: string, value: string, rest: string)
    ensures ReadField(name, Field(name, value) + rest) == Got(value, rest)
  {
    var tail := ":" + (value + ("\n" + rest));
    FieldSplits(name, value, rest);
    LiteralReads(name + ":", Digits(|value|) + tail);
    NumberReads(|value|, tail);
    LiteralReads(":", value + ("\n" + rest));
    LiteralReads("\n", rest);
    assert (value + ("\n" + rest))[..|value|] == value;
    assert (value + ("\n" + rest))[|value|..] == "\n" + rest;
  }

  lemma FieldSplits(name: string, value: string, rest: string)
    ensures Field(name, value) + rest == (name + ":") + (Digits(|value|) + (":" + (value + ("\n" + rest))))
  {
    hide Digits;
    var d := Digits(|value|);
    assert Field(name, value) == name + ":" + d + ":" + value + "\n";
  }

  lemma CountReads(name: string, n: nat, rest: string)
    ensures ReadCount(name, Count(name, n) + rest) == Got(n, rest)
  {
    hide Digits;
    assert Count(name, n) + rest == (name + ".count:") + (Digits(n) + ("\n" + rest));
    LiteralReads(name + ".count:", Digits(n) + ("\n" + rest));
    NumberReads(n, "\n" + rest);
    LiteralReads("\n", rest);
  }

  lemma CatSplits(parts: seq<string>, rest: string)
    requires parts != []
    ensures Cat(parts) + rest == parts[0] + (Cat(parts[1..]) + rest)
  {
  }

  // ---------------------------------------------------------------- lists

  function ReadItems(name: string, i: nat, n: nat, input: string): Parsed<seq<string>>
    requires i <= n
    decreases n - i
  {
    if i == n then Got([], input)
    else
      var v := ReadField(Item(name, i), input);
      if v.Bad? then Bad
      else
        var vs := ReadItems(name, i + 1, n, v.rest);
        if vs.Bad? then Bad else Got([v.value] + vs.value, vs.rest)
  }

  function ReadList(name: string, input: string): Parsed<seq<string>>
  {
    var n := ReadCount(name, input);
    if n.Bad? then Bad else ReadItems(name, 0, n.value, n.rest)
  }

  lemma {:induction false} ItemsRead(name: string, values: seq<string>, i: nat, rest: string)
    requires i <= |values|
    ensures ReadItems(name, i, |values|, Cat(Items(name, values)[i..]) + rest) == Got(values[i..], rest)
    decreases |values| - i
  {
    hide ReadField, Field, Item;
    var parts := Items(name, values);
    if i < |values| {
      CatSplits(parts[i..], rest);
      assert parts[i..][1..] == parts[i + 1..];
      FieldReads(Item(name, i), values[i], Cat(parts[i + 1..]) + rest);
      ItemsRead(name, values, i + 1, rest);
      assert values[i..] == [values[i]] + values[i + 1..];
    } else {
      assert parts[i..] == [] && values[i..] == [];
      assert Cat([]) + rest == rest;
    }
  }

  lemma ListReads(name: string, values: seq<string>, rest: string)
    ensures ReadList(name, List(name, values) + rest) == Got(values, rest)
  {
    hide ReadCount, ReadItems, Count;
    var items := Cat(Items(name, values));
    Associates(Count(name, |values|), items, rest);
    CountReads(name, |values|, items + rest);
    ItemsRead(name, values, 0, rest);
    assert Items(name, values)[0..] == Items(name, values) && values[0..] == values;
  }

  // ---------------------------------------------------------------- skills and results

  lemma PeelThree(parts: seq<string>, rest: string)
    requires |parts| == 3
    ensures Cat(parts) + rest == parts[0] + (parts[1] + (parts[2] + rest))
  {
    CatSplits(parts, rest);
    CatSplits(parts[1..], rest);
    CatSplits(parts[1..][1..], rest);
    assert parts[1..][1..][1..] == [];
    assert Cat([]) + rest == rest;
  }

  lemma PeelFive(parts: seq<string>, rest: string)
    requires |parts| == 5
    ensures Cat(parts) + rest == parts[0] + (parts[1] + (parts[2] + (parts[3] + (parts[4] + rest))))
  {
    CatSplits(parts, rest);
    CatSplits(parts[1..], rest);
    assert parts[1..][1..] == parts[2..];
    PeelThree(parts[2..], rest);
  }

  function ReadSkill(prefix: string, input: string): Parsed<Skill>
  {
    var id := ReadField(prefix + ".id", input);
    if id.Bad? then Bad
    else
      var name := ReadField(prefix + ".name", id.rest);
      if name.Bad? then Bad
      else
        var tags := ReadList(prefix + ".tags", name.rest);
        if tags.Bad? then Bad
        else
          var ins := ReadList(prefix + ".inputModes", tags.rest);
          if ins.Bad? then Bad
          else
            var outs := ReadList(prefix + ".outputModes", ins.rest);
            if outs.Bad? then Bad
            else Got(Skill(id.value, name.value, tags.value, ins.value, outs.value), outs.rest)
  }

  lemma SkillReads(prefix: string, s: Skill, rest: string)
    ensures ReadSkill(prefix, Cat(SkillParts(prefix, s)) + rest) == Got(s, rest)
  {
    hide ReadField, ReadList, Field, List, Cat;
    var p := SkillParts(prefix, s);
    PeelFive(p, rest);
    ListReads(prefix + ".outputModes", s.output, rest);
    ListReads(prefix + ".inputModes", s.input, p[4] + rest);
    ListReads(prefix + ".tags", s.tags, p[3] + (p[4] + rest));
    FieldReads(prefix + ".name", s.name, p[2] + (p[3] + (p[4] + rest)));
    FieldReads(prefix + ".id", s.id, p[1] + (p[2] + (p[3] + (p[4] + rest))));
  }

  function ReadSkillItems(name: string, i: nat, n: nat, input: string): Parsed<seq<Skill>>
    requires i <= n
    decreases n - i
  {
    if i == n then Got([], input)
    else
      var v := ReadSkill(Item(name, i), input);
      if v.Bad? then Bad
      else
        var vs := ReadSkillItems(name, i + 1, n, v.rest);
        if vs.Bad? then Bad else Got([v.value] + vs.value, vs.rest)
  }

  lemma {:induction false} SkillItemsRead(name: string, skills: seq<Skill>, i: nat, rest: string)
    requires i <= |skills|
    ensures ReadSkillItems(name, i, |skills|, Cat(SkillTexts(name, skills)[i..]) + rest) == Got(skills[i..], rest)
    decreases |skills| - i
  {
    hide ReadSkill, SkillParts, Item;
    var parts := SkillTexts(name, skills);
    if i < |skills| {
      CatSplits(parts[i..], rest);
      assert parts[i..][1..] == parts[i + 1..];
      SkillReads(Item(name, i), skills[i], Cat(parts[i + 1..]) + rest);
      SkillItemsRead(name, skills, i + 1, rest);
      assert skills[i..] == [skills[i]] + skills[i + 1..];
    } else {
      assert parts[i..] == [] && skills[i..] == [];
      assert Cat([]) + rest == rest;
    }
  }

  function ReadSkills(name: string, input: string): Parsed<seq<Skill>>
  {
    var n := ReadCount(name, input);
    if n.Bad? then Bad else ReadSkillItems(name, 0, n.value, n.rest)
  }

  lemma SkillsRead(name: string, skills: seq<Skill>, rest: string)
    ensures ReadSkills(name, Skills(name, skills) + rest) == Got(skills, rest)
  {
    hide ReadCount, ReadSkillItems, Count;
    var items := Cat(SkillTexts(name, skills));
    Associates(Count(name, |skills|), items, rest);
    CountReads(name, |skills|, items + rest);
    SkillItemsRead(name, skills, 0, rest);
    assert SkillTexts(name, skills)[0..] == SkillTexts(name, skills) && skills[0..] == skills;
  }

  function ReadResult(prefix: string, input: string): Parsed<ProbeResult>
  {
    var capability := ReadField(prefix + ".capability", input);
    if capability.Bad? then Bad
    else
      var status := ReadField(prefix + ".status", capability.rest);
      if status.Bad? then Bad
      else
        var detail := ReadField(prefix + ".detail", status.rest);
        if detail.Bad? then Bad else Got(ProbeResult(capability.value, status.value, detail.value), detail.rest)
  }

  lemma ResultReads(prefix: string, r: ProbeResult, rest: string)
    ensures ReadResult(prefix, Cat(ResultParts(prefix, r)) + rest) == Got(r, rest)
  {
    hide ReadField, Field, Cat;
    var p := ResultParts(prefix, r);
    PeelThree(p, rest);
    FieldReads(prefix + ".detail", r.detail, rest);
    FieldReads(prefix + ".status", r.status, p[2] + rest);
    FieldReads(prefix + ".capability", r.capability, p[1] + (p[2] + rest));
  }

  function ReadResultItems(name: string, i: nat, n: nat, input: string): Parsed<seq<ProbeResult>>
    requires i <= n
    decreases n - i
  {
    if i == n then Got([], input)
    else
      var v := ReadResult(Item(name, i), input);
      if v.Bad? then Bad
      else
        var vs := ReadResultItems(name, i + 1, n, v.rest);
        if vs.Bad? then Bad else Got([v.value] + vs.value, vs.rest)
  }

  lemma {:induction false} ResultItemsRead(name: string, results: seq<ProbeResult>, i: nat, rest: string)
    requires i <= |results|
    ensures ReadResultItems(name, i, |results|, Cat(ResultTexts(name, results)[i..]) + rest) == Got(results[i..], rest)
    decreases |results| - i
  {
    hide ReadResult, ResultParts, Item;
    var parts := ResultTexts(name, results);
    if i < |results| {
      CatSplits(parts[i..], rest);
      assert parts[i..][1..] == parts[i + 1..];
      ResultReads(Item(name, i), results[i], Cat(parts[i + 1..]) + rest);
      ResultItemsRead(name, results, i + 1, rest);
      assert results[i..] == [results[i]] + results[i + 1..];
    } else {
      assert parts[i..] == [] && results[i..] == [];
      assert Cat([]) + rest == rest;
    }
  }

  function ReadResults(name: string, input: string): Parsed<seq<ProbeResult>>
  {
    var n := ReadCount(name, input);
    if n.Bad? then Bad else ReadResultItems(name, 0, n.value, n.rest)
  }

  lemma ResultsRead(name: string, results: seq<ProbeResult>, rest: string)
    ensures ReadResults(name, Results(name, results) + rest) == Got(results, rest)
  {
    hide ReadCount, ReadResultItems, Count;
    var items := Cat(ResultTexts(name, results));
    Associates(Count(name, |results|), items, rest);
    CountReads(name, |results|, items + rest);
    ResultItemsRead(name, results, 0, rest);
    assert ResultTexts(name, results)[0..] == ResultTexts(name, results) && results[0..] == results;
  }

  // ---------------------------------------------------------------- whole statements

  function ReadCard(input: string): Parsed<Card>
  {
    var agent := ReadField("agent", input);
    if agent.Bad? then Bad else
    var name := ReadField("name", agent.rest);
    if name.Bad? then Bad else
    var description := ReadField("description", name.rest);
    if description.Bad? then Bad else
    var version := ReadField("version", description.rest);
    if version.Bad? then Bad else
    var url := ReadField("url", version.rest);
    if url.Bad? then Bad else
    var capabilities := ReadList("capabilities", url.rest);
    if capabilities.Bad? then Bad else
    var skills := ReadSkills("skills", capabilities.rest);
    if skills.Bad? then Bad else
    var target := ReadField("probeTarget", skills.rest);
    if target.Bad? then Bad else
    var currencies := ReadList("currencies", target.rest);
    if currencies.Bad? then Bad else
    var modes := ReadList("settlementModes", currencies.rest);
    if modes.Bad? then Bad
    else Got(Card(agent.value, name.value, description.value, version.value, url.value, capabilities.value,
                  skills.value, target.value, currencies.value, modes.value), modes.rest)
  }

  function ReadOffer(input: string): Parsed<Offer>
  {
    var id := ReadField("offer", input);
    if id.Bad? then Bad else
    var seller := ReadField("seller", id.rest);
    if seller.Bad? then Bad else
    var description := ReadField("description", seller.rest);
    if description.Bad? then Bad else
    var direction := ReadField("direction", description.rest);
    if direction.Bad? then Bad else
    var capabilities := ReadList("capabilities", direction.rest);
    if capabilities.Bad? then Bad else
    var mint := ReadField("mint", capabilities.rest);
    if mint.Bad? then Bad else
    var scale := ReadField("scale", mint.rest);
    if scale.Bad? then Bad else
    var amount := ReadField("amountBaseUnits", scale.rest);
    if amount.Bad? then Bad else
    var unit := ReadField("unitAmount", amount.rest);
    if unit.Bad? then Bad else
    var modes := ReadList("settlementModes", unit.rest);
    if modes.Bad? then Bad
    else Got(Offer(id.value, seller.value, description.value, direction.value, capabilities.value, mint.value,
                   scale.value, amount.value, unit.value, modes.value), modes.rest)
  }

  function ReadProbe(input: string): Parsed<Probe>
  {
    var agent := ReadField("agent", input);
    if agent.Bad? then Bad else
    var target := ReadField("target", agent.rest);
    if target.Bad? then Bad else
    var checkedAt := ReadField("checkedAt", target.rest);
    if checkedAt.Bad? then Bad else
    var results := ReadResults("results", checkedAt.rest);
    if results.Bad? then Bad
    else Got(Probe(agent.value, target.value, checkedAt.value, results.value), results.rest)
  }

  function Decode(input: string): Parsed<Statement>
  {
    var head := Literal(CANONICAL_FORM + "\n" + "kind:", input);
    if head.Bad? then Bad
    else
      var card, offer, probe := Literal("agent-card\n", head.rest), Literal("offer\n", head.rest), Literal("probe\n", head.rest);
      var body := if card.Got? then card else if offer.Got? then offer else probe;
      if body.Bad? then Bad
      else
        var at := ReadField("signedAt", body.rest);
        if at.Bad? then Bad
        else if card.Got? then
          var c := ReadCard(at.rest);
          if c.Bad? then Bad else Got(CardStatement(at.value, c.value), c.rest)
        else if offer.Got? then
          var o := ReadOffer(at.rest);
          if o.Bad? then Bad else Got(OfferStatement(at.value, o.value), o.rest)
        else
          var p := ReadProbe(at.rest);
          if p.Bad? then Bad else Got(ProbeStatement(at.value, p.value), p.rest)
  }

  lemma CardReads(c: Card, rest: string)
    ensures ReadCard(Cat(CardParts(c)) + rest) == Got(c, rest)
  {
    hide ReadField, ReadList, ReadSkills, Field, List, Skills, Cat;
    var p := CardParts(c);
    var after := PeelTen(p, rest);
    FieldReads("agent", c.agent, after[0]);
    FieldReads("name", c.name, after[1]);
    FieldReads("description", c.description, after[2]);
    FieldReads("version", c.version, after[3]);
    FieldReads("url", c.url, after[4]);
    ListReads("capabilities", c.capabilities, after[5]);
    SkillsRead("skills", c.skills, after[6]);
    FieldReads("probeTarget", c.probeTarget, after[7]);
    ListReads("currencies", c.currencies, after[8]);
    ListReads("settlementModes", c.modes, after[9]);
  }

  lemma OfferReads(o: Offer, rest: string)
    ensures ReadOffer(Cat(OfferParts(o)) + rest) == Got(o, rest)
  {
    hide ReadField, ReadList, Field, List, Cat;
    var p := OfferParts(o);
    var after := PeelTen(p, rest);
    FieldReads("offer", o.id, after[0]);
    FieldReads("seller", o.seller, after[1]);
    FieldReads("description", o.description, after[2]);
    FieldReads("direction", o.direction, after[3]);
    ListReads("capabilities", o.capabilities, after[4]);
    FieldReads("mint", o.mint, after[5]);
    FieldReads("scale", o.scale, after[6]);
    FieldReads("amountBaseUnits", o.amount, after[7]);
    FieldReads("unitAmount", o.unitAmount, after[8]);
    ListReads("settlementModes", o.modes, after[9]);
  }

  /** What follows each of ten parts. */
  lemma PeelTen(parts: seq<string>, rest: string) returns (after: seq<string>)
    requires |parts| == 10
    ensures |after| == 10 && after[9] == rest
    ensures Cat(parts) + rest == parts[0] + after[0]
    ensures after[0] == parts[1] + after[1] && after[1] == parts[2] + after[2] && after[2] == parts[3] + after[3]
    ensures after[3] == parts[4] + after[4] && after[4] == parts[5] + after[5] && after[5] == parts[6] + after[6]
    ensures after[6] == parts[7] + after[7] && after[7] == parts[8] + after[8] && after[8] == parts[9] + after[9]
  {
    hide Cat;
    after := [Cat(parts[1..]) + rest, Cat(parts[2..]) + rest, Cat(parts[3..]) + rest, Cat(parts[4..]) + rest,
              Cat(parts[5..]) + rest, Cat(parts[6..]) + rest, Cat(parts[7..]) + rest, Cat(parts[8..]) + rest,
              Cat(parts[9..]) + rest, rest];
    forall k | 0 <= k < 10 ensures Cat(parts[k..]) + rest == parts[k] + (Cat(parts[k + 1..]) + rest) {
      CatSplits(parts[k..], rest);
      assert parts[k..][1..] == parts[k + 1..];
    }
    assert parts[0..] == parts && parts[10..] == [];
    CatEmpty(rest);
  }

  lemma CatEmpty(rest: string)
    ensures Cat([]) + rest == rest
  {
  }

  lemma ProbeReads(p: Probe, rest: string)
    ensures ReadProbe(Cat(ProbeParts(p)) + rest) == Got(p, rest)
  {
    hide ReadField, ReadResults, Field, Results, Cat;
    var parts := ProbeParts(p);
    CatSplits(parts, rest);
    PeelThree(parts[1..], rest);
    FieldReads("agent", p.agent, Cat(parts[1..]) + rest);
    FieldReads("target", p.target, parts[2] + (parts[3] + rest));
    FieldReads("checkedAt", p.checkedAt, parts[3] + rest);
    ResultsRead("results", p.results, rest);
  }

  lemma HeaderSplits(kind: string, at: string, body: string)
    ensures Header(kind, at) + body == (CANONICAL_FORM + "\n" + "kind:") + ((kind + "\n") + (Field("signedAt", at) + body))
  {
    hide Field;
  }

  lemma KindReads(kind: string, rest: string)
    requires kind in {"agent-card", "offer", "probe"}
    ensures Literal("agent-card\n", (kind + "\n") + rest) == if kind == "agent-card" then Got("agent-card\n", rest) else Bad
    ensures Literal("offer\n", (kind + "\n") + rest) == if kind == "offer" then Got("offer\n", rest) else Bad
    ensures Literal("probe\n", (kind + "\n") + rest) == if kind == "probe" then Got("probe\n", rest) else Bad
  {
    assert ((kind + "\n") + rest)[0] == kind[0];
    assert ((kind + "\n") + rest)[|kind| + 1..] == rest;
  }

  /** Decoding what any statement's layout spells gives the statement back. */
  lemma DecodeReads(st: Statement)
    ensures Decode(Layout(st)) == Got(st, "")
  {
    hide ReadField, ReadCard, ReadOffer, ReadProbe, Field, Cat, Literal, Header;
    var kind := if st.CardStatement? then "agent-card" else if st.OfferStatement? then "offer" else "probe";
    var parts := if st.CardStatement? then CardParts(st.card) else if st.OfferStatement? then OfferParts(st.offer) else ProbeParts(st.probe);
    assert Layout(st) == Header(kind, st.at) + Cat(parts);
    HeaderSplits(kind, st.at, Cat(parts));
    LiteralReads(CANONICAL_FORM + "\n" + "kind:", (kind + "\n") + (Field("signedAt", st.at) + Cat(parts)));
    KindReads(kind, Field("signedAt", st.at) + Cat(parts));
    FieldReads("signedAt", st.at, Cat(parts));
    assert Cat(parts) + "" == Cat(parts);
    match st
    case CardStatement(_, c) => CardReads(c, "");
    case OfferStatement(_, o) => OfferReads(o, "");
    case ProbeStatement(_, p) => ProbeReads(p, "");
  }

  /** Unique decodability: equal bytes come only from statements of the same kind, with the
      same timestamp text, equal scalar fields, equal sorted sets and equal ordered skills
      or results, whatever the fields contain. */
  lemma EncodingIsUnique(a: Statement, b: Statement)
    ensures Encode(a) == Encode(b) <==> Normal(a) == Normal(b)
  {
    hide Layout, Decode, Normal;
    DecodeReads(Normal(a));
    DecodeReads(Normal(b));
  }
}
