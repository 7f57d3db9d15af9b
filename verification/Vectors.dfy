/** The canonical encoding pinned by examples: the two cards its tests write out, and one
    statement each of the other two kinds. */
module Vectors {
  import Money
  import opened Ordering
  import opened Attest

  const AT := "2026-10-04T12:00:00Z"

  // ---------------------------------------------------------------- lengths in decimal

  lemma Decimals()
    ensures Digits(0) == "0" && Digits(1) == "1" && Digits(2) == "2" && Digits(3) == "3" && Digits(4) == "4" && Digits(5) == "5"
    ensures Digits(8) == "8" && Digits(9) == "9" && Digits(10) == "10" && Digits(20) == "20"
  {
    assert Money.FormatUint(10) == Money.FormatUint(1) + [Money.DigitChar(0)];
    assert Money.FormatUint(20) == Money.FormatUint(2) + [Money.DigitChar(0)];
  }

  lemma CountLine(name: string, n: nat, digits: string)
    requires Digits(n) == digits
    ensures Count(name, n) == name + ".count:" + digits + "\n"
  {
  }

  lemma FieldLine(name: string, value: string, digits: string)
    requires Digits(|value|) == digits
    ensures Field(name, value) == name + ":" + digits + ":" + value + "\n"
  {
  }

  // ---------------------------------------------------------------- blocks of lines

  function Flat(blocks: seq<seq<string>>): seq<string>
  {
    if blocks == [] then [] else blocks[0] + Flat(blocks[1..])
  }

  lemma {:induction false} CatJoins(a: seq<string>, b: seq<string>)
    ensures Cat(a + b) == Cat(a) + Cat(b)
  {
    if a == [] {
      assert a + b == b;
    } else {
      assert (a + b)[1..] == a[1..] + b;
      CatJoins(a[1..], b);
      Associates(a[0], Cat(a[1..]), Cat(b));
    }
  }

  /** Parts that are blocks of lines are all their lines. */
  lemma {:induction false} CatOfBlocks(parts: seq<string>, blocks: seq<seq<string>>)
    requires |parts| == |blocks| && forall i :: 0 <= i < |parts| ==> parts[i] == Cat(blocks[i])
    ensures Cat(parts) == Cat(Flat(blocks))
  {
    if parts != [] {
      CatOfBlocks(parts[1..], blocks[1..]);
      CatJoins(blocks[0], Flat(blocks[1..]));
    }
  }

  lemma OneLine(line: string)
    ensures Cat([line]) == line
  {
    assert [line][1..] == [] && line + "" == line;
  }

  /** A statement whose header and parts are these lines reads as all of them. */
  lemma TextOf(header: string, parts: seq<string>, first: seq<string>, blocks: seq<seq<string>>)
    requires header == Cat(first) && Blocks(parts, blocks)
    ensures header + Cat(parts) == Cat(first + Flat(blocks))
  {
    hide Cat, Flat;
    CatOfBlocks(parts, blocks);
    CatJoins(first, Flat(blocks));
  }

  ghost predicate Blocks(parts: seq<string>, blocks: seq<seq<string>>)
  {
    |parts| == |blocks| && forall i :: 0 <= i < |parts| ==> parts[i] == Cat(blocks[i])
  }

  lemma HeaderLines(kind: string, at: string, digits: string)
    requires Digits(|at|) == digits
    ensures Header(kind, at)
            == Cat(["vtessera/attest/v1\n", "kind:" + kind + "\n", "signedAt:" + digits + ":" + at + "\n"])
  {
    FieldLine("signedAt", at, digits);
    hide Field;
    var a, b, c := "vtessera/attest/v1\n", "kind:" + kind + "\n", "signedAt:" + digits + ":" + at + "\n";
    assert CANONICAL_FORM + "\n" == a;
    assert [a, b, c][1..] == [b, c] && [b, c][1..] == [c];
    OneLine(c);
    assert Cat([b, c]) == b + c && Cat([a, b, c]) == a + (b + c);
    assert Header(kind, at) == a + b + c;
  }

  lemma NoneSorted()
    ensures SortedUnique([]) == []
  {
  }

  lemma OneSorted(a: string)
    ensures SortedUnique([a]) == [a]
  {
    assert [a][..0] == [];
    assert Dedup([a]) == [a] by { assert Dedup([]) == []; }
    assert [a][1..] == [];
    assert StableSort([a], Itself) == [a];
  }

  /** Two members, whichever comes first and however often. */
  lemma TwoSorted(xs: seq<string>, a: string, b: string)
    requires Before(a, b) && forall x :: x in xs <==> x == a || x == b
    ensures SortedUnique(xs) == [a, b]
  {
    SetDecides(xs, [a, b]);
    assert [a, b][..1] == [a] && [a][..0] == [] && [a, b][1..] == [b] && [b][1..] == [];
    BeforeIsTotal(a, b);
    assert Dedup([a]) == [a] by { assert Dedup([]) == []; }
    assert Dedup([a, b]) == [a, b];
    assert StableSort([b], Itself) == [b];
  }

  lemma ListLines(name: string, values: seq<string>, digits: string, lines: seq<string>)
    requires Digits(|values|) == digits && |lines| == |values| + 1 && lines[0] == name + ".count:" + digits + "\n"
    requires forall i :: 0 <= i < |values| ==> lines[i + 1] == Field(Item(name, i), values[i])
    ensures List(name, values) == Cat(lines)
  {
    hide Field, Count, Item;
    CountLine(name, |values|, digits);
    assert Items(name, values) == lines[1..];
  }

  lemma ItemLine(name: string, i: nat, value: string, index: string, digits: string)
    requires Digits(i) == index && Digits(|value|) == digits
    ensures Field(Item(name, i), value) == name + "." + index + ":" + digits + ":" + value + "\n"
  {
    FieldLine(Item(name, i), value, digits);
  }

  // ---------------------------------------------------------------- a card with sets

  const PLAIN := Card("KEY", "n", "", "", "https://x/", ["a", "b"], [], "", [], ["offchain"])

  const PLAIN_LINES := [
    ["agent:3:KEY\n"],
    ["name:1:n\n"],
    ["description:0:\n"],
    ["version:0:\n"],
    ["url:10:https://x/\n"],
    ["capabilities.count:2\n", "capabilities.0:1:a\n", "capabilities.1:1:b\n"],
    ["skills.count:0\n"],
    ["probeTarget:0:\n"],
    ["currencies.count:0\n"],
    ["settlementModes.count:1\n", "settlementModes.0:8:offchain\n"]]

  const CARD_HEADER := ["vtessera/attest/v1\n", "kind:agent-card\n", "signedAt:20:2026-10-04T12:00:00Z\n"]

  lemma ScalarLines()
    ensures Field("agent", "KEY") == "agent:3:KEY\n" && Field("name", "n") == "name:1:n\n"
    ensures Field("description", "") == "description:0:\n" && Field("version", "") == "version:0:\n"
    ensures Field("url", "https://x/") == "url:10:https://x/\n" && Field("probeTarget", "") == "probeTarget:0:\n"
  {
    Decimals();
    hide Digits;
    FieldLine("agent", "KEY", "3");
    FieldLine("name", "n", "1");
    FieldLine("description", "", "0");
    FieldLine("version", "", "0");
    FieldLine("url", "https://x/", "10");
    FieldLine("probeTarget", "", "0");
  }

  lemma NoneListed(name: string, line: string)
    requires line == name + ".count:0\n"
    ensures List(name, []) == Cat([line])
  {
    Decimals();
    hide Digits, Cat;
    assert name + ".count:" + "0" + "\n" == line;
    ListLines(name, [], "0", [line]);
  }

  lemma OneListed(name: string, a: string, digits: string, count: string, line: string)
    requires Digits(|a|) == digits && count == name + ".count:1\n" && line == name + ".0:" + digits + ":" + a + "\n"
    ensures List(name, [a]) == Cat([count, line])
  {
    Decimals();
    hide Digits, Cat;
    ItemLine(name, 0, a, "0", digits);
    assert name + ".count:" + "1" + "\n" == count;
    assert name + "." + "0" + ":" + digits + ":" + a + "\n" == line;
    ListLines(name, [a], "1", [count, line]);
  }

  lemma TwoListed(name: string, a: string, b: string, digits: string, count: string, first: string, second: string)
    requires Digits(|a|) == digits && Digits(|b|) == digits && count == name + ".count:2\n"
    requires first == name + ".0:" + digits + ":" + a + "\n" && second == name + ".1:" + digits + ":" + b + "\n"
    ensures List(name, [a, b]) == Cat([count, first, second])
  {
    Decimals();
    hide Digits, Cat;
    ItemLine(name, 0, a, "0", digits);
    ItemLine(name, 1, b, "1", digits);
    assert name + ".count:" + "2" + "\n" == count;
    assert name + "." + "0" + ":" + digits + ":" + a + "\n" == first;
    assert name + "." + "1" + ":" + digits + ":" + b + "\n" == second;
    ListLines(name, [a, b], "2", [count, first, second]);
  }

  lemma PlainLists()
    ensures List("capabilities", ["a", "b"]) == Cat(PLAIN_LINES[5])
    ensures List("currencies", []) == Cat(PLAIN_LINES[8])
    ensures List("settlementModes", ["offchain"]) == Cat(PLAIN_LINES[9])
  {
    Decimals();
    hide Digits, Cat, List;
    TwoListed("capabilities", "a", "b", "1", "capabilities.count:2\n", "capabilities.0:1:a\n", "capabilities.1:1:b\n");
    NoneListed("currencies", "currencies.count:0\n");
    OneListed("settlementModes", "offchain", "8", "settlementModes.count:1\n", "settlementModes.0:8:offchain\n");
  }

  lemma NoSkills()
    ensures Skills("skills", []) == "skills.count:0\n"
  {
    Decimals();
    CountLine("skills", 0, "0");
    assert SkillTexts("skills", []) == [];
  }

  lemma PlainNormal()
    ensures Normal(CardStatement(AT, PLAIN)) == CardStatement(AT, PLAIN)
  {
    hide StableSort;
    NoneSorted();
    OneSorted("offchain");
    TwoSorted(["a", "b"], "a", "b");
    hide SortedUnique;
    assert StableSort(NormalSkills([]), SkillKey) == [] by { NoneStable(); }
  }

  lemma NoneStable()
    ensures StableSort(NormalSkills([]), SkillKey) == []
  {
  }

  lemma CardHeader()
    ensures Header("agent-card", AT) == Cat(CARD_HEADER)
  {
    Decimals();
    hide Digits, Cat;
    HeaderLines("agent-card", AT, "20");
    assert "kind:" + "agent-card" + "\n" == "kind:agent-card\n";
    assert "signedAt:" + "20" + ":" + AT + "\n" == "signedAt:20:2026-10-04T12:00:00Z\n";
  }

  lemma PlainBlocks()
    ensures Blocks(CardParts(PLAIN), PLAIN_LINES)
  {
    ScalarLines();
    PlainLists();
    NoSkills();
    hide Field, List, Skills, Cat;
    forall i | 0 <= i < 10 && |PLAIN_LINES[i]| == 1 ensures Cat(PLAIN_LINES[i]) == PLAIN_LINES[i][0] {
      OneLine(PLAIN_LINES[i][0]);
    }
  }

  /** The encoding the tests write out for a card with capabilities and a settlement mode. */
  lemma PlainCardText()
    ensures Encode(CardStatement(AT, PLAIN)) == Cat(CARD_HEADER + Flat(PLAIN_LINES))
  {
    hide Cat, Flat, Header, Blocks, Normal, CardParts;
    PlainNormal();
    CardHeader();
    PlainBlocks();
    TextOf(Header("agent-card", AT), CardParts(PLAIN), CARD_HEADER, PLAIN_LINES);
  }

  // ---------------------------------------------------------------- a card with a skill

  const SUMMARIZE := Skill("summarize", "Summarize", ["text"], ["text/plain"], ["text/plain"])

  const SKILLED := Card("KEY", "n", "", "", "https://x/", [], [SUMMARIZE], "", [], [])

  const SKILL_LINES := [
    ["skills.0.id:9:summarize\n"],
    ["skills.0.name:9:Summarize\n"],
    ["skills.0.tags.count:1\n", "skills.0.tags.0:4:text\n"],
    ["skills.0.inputModes.count:1\n", "skills.0.inputModes.0:10:text/plain\n"],
    ["skills.0.outputModes.count:1\n", "skills.0.outputModes.0:10:text/plain\n"]]

  const SKILLED_LINES := [
    ["agent:3:KEY\n"],
    ["name:1:n\n"],
    ["description:0:\n"],
    ["version:0:\n"],
    ["url:10:https://x/\n"],
    ["capabilities.count:0\n"],
    ["skills.count:1\n"] + Flat(SKILL_LINES),
    ["probeTarget:0:\n"],
    ["currencies.count:0\n"],
    ["settlementModes.count:0\n"]]

  lemma SkillBlocks()
    ensures Blocks(SkillParts("skills.0", SUMMARIZE), SKILL_LINES)
  {
    SkillNames();
    SkillFields();
    SkillLists();
    hide Field, List, Cat;
    OneLine(SKILL_LINES[0][0]);
    OneLine(SKILL_LINES[1][0]);
  }

  lemma SkillFields()
    ensures Field("skills.0.id", "summarize") == SKILL_LINES[0][0] && Field("skills.0.name", "Summarize") == SKILL_LINES[1][0]
  {
    Decimals();
    hide Digits;
    FieldLine("skills.0.id", "summarize", "9");
    FieldLine("skills.0.name", "Summarize", "9");
  }

  lemma SkillLists()
    ensures List("skills.0.tags", ["text"]) == Cat(SKILL_LINES[2])
    ensures List("skills.0.inputModes", ["text/plain"]) == Cat(SKILL_LINES[3])
    ensures List("skills.0.outputModes", ["text/plain"]) == Cat(SKILL_LINES[4])
  {
    Decimals();
    hide Digits, List, Cat;
    OneListed("skills.0.tags", "text", "4", SKILL_LINES[2][0], SKILL_LINES[2][1]);
    OneListed("skills.0.inputModes", "text/plain", "10", SKILL_LINES[3][0], SKILL_LINES[3][1]);
    OneListed("skills.0.outputModes", "text/plain", "10", SKILL_LINES[4][0], SKILL_LINES[4][1]);
  }

  lemma SkillText()
    ensures Cat(SkillParts("skills.0", SUMMARIZE)) == Cat(Flat(SKILL_LINES))
  {
    SkillBlocks();
    hide Cat, Flat, SkillParts;
    CatOfBlocks(SkillParts("skills.0", SUMMARIZE), SKILL_LINES);
  }

  lemma SkillNames()
    ensures "skills.0" + ".id" == "skills.0.id" && "skills.0" + ".name" == "skills.0.name" && "skills.0" + ".tags" == "skills.0.tags"
    ensures "skills.0" + ".inputModes" == "skills.0.inputModes" && "skills.0" + ".outputModes" == "skills.0.outputModes"
  {
  }

  lemma OneSkill()
    ensures Skills("skills", [SUMMARIZE]) == Cat(SKILLED_LINES[6])
  {
    Decimals();
    SkillText();
    CountLine("skills", 1, "1");
    assert "skills" + ".count:" + "1" + "\n" == "skills.count:1\n";
    assert Item("skills", 0) == "skills.0" by { assert "skills" + "." + "0" == "skills.0"; }
    hide Digits, Count, SkillParts, Item;
    var texts := SkillTexts("skills", [SUMMARIZE]);
    OneLine(texts[0]);
    assert texts == [texts[0]];
    assert (["skills.count:1\n"] + Flat(SKILL_LINES))[1..] == Flat(SKILL_LINES);
    hide SkillTexts, Flat;
  }

  lemma SkilledNormal()
    ensures Normal(CardStatement(AT, SKILLED)) == CardStatement(AT, SKILLED)
  {
    NoneSorted();
    OneSorted("text");
    OneSorted("text/plain");
    hide SortedUnique, SkillKey;
    NormalSkillsOne(SUMMARIZE);
    assert NormalSkill(SUMMARIZE) == SUMMARIZE;
    assert [SUMMARIZE][1..] == [];
    assert StableSort([SUMMARIZE], SkillKey) == [SUMMARIZE];
  }

  lemma SkilledBlocks()
    ensures Blocks(CardParts(SKILLED), SKILLED_LINES)
  {
    ScalarLines();
    NoneListed("capabilities", "capabilities.count:0\n");
    NoneListed("currencies", "currencies.count:0\n");
    NoneListed("settlementModes", "settlementModes.count:0\n");
    OneSkill();
    hide Field, List, Skills, Cat, Flat;
    forall i | 0 <= i < 10 && i != 6 ensures Cat(SKILLED_LINES[i]) == SKILLED_LINES[i][0] {
      OneLine(SKILLED_LINES[i][0]);
    }
  }

  /** The encoding the tests write out for a card with a skill. */
  lemma SkilledCardText()
    ensures Encode(CardStatement(AT, SKILLED)) == Cat(CARD_HEADER + Flat(SKILLED_LINES))
  {
    hide Cat, Flat, Header, Blocks, Normal, CardParts;
    SkilledNormal();
    CardHeader();
    SkilledBlocks();
    TextOf(Header("agent-card", AT), CardParts(SKILLED), CARD_HEADER, SKILLED_LINES);
  }

  // ---------------------------------------------------------------- every field its own value

  const TRANSLATE := Skill("s", "t", ["x"], ["y"], ["z"])

  const TRANSLATE_LINES := [
    ["skills.0.id:1:s\n"],
    ["skills.0.name:1:t\n"],
    ["skills.0.tags.count:1\n", "skills.0.tags.0:1:x\n"],
    ["skills.0.inputModes.count:1\n", "skills.0.inputModes.0:1:y\n"],
    ["skills.0.outputModes.count:1\n", "skills.0.outputModes.0:1:z\n"]]

  /** A skill's fields, each told from the others. */
  lemma TranslateText()
    ensures Blocks(SkillParts("skills.0", NormalSkill(TRANSLATE)), TRANSLATE_LINES)
  {
    OneSorted("x");
    OneSorted("y");
    OneSorted("z");
    SkillNames();
    TranslateParts();
    hide Field, List, Cat, SortedUnique;
    OneLine(TRANSLATE_LINES[0][0]);
    OneLine(TRANSLATE_LINES[1][0]);
  }

  lemma TranslateParts()
    ensures Field("skills.0.id", "s") == TRANSLATE_LINES[0][0] && Field("skills.0.name", "t") == TRANSLATE_LINES[1][0]
    ensures List("skills.0.tags", ["x"]) == Cat(TRANSLATE_LINES[2])
    ensures List("skills.0.inputModes", ["y"]) == Cat(TRANSLATE_LINES[3])
    ensures List("skills.0.outputModes", ["z"]) == Cat(TRANSLATE_LINES[4])
  {
    Decimals();
    hide Digits, List, Cat;
    FieldLine("skills.0.id", "s", "1");
    FieldLine("skills.0.name", "t", "1");
    OneListed("skills.0.tags", "x", "1", TRANSLATE_LINES[2][0], TRANSLATE_LINES[2][1]);
    OneListed("skills.0.inputModes", "y", "1", TRANSLATE_LINES[3][0], TRANSLATE_LINES[3][1]);
    OneListed("skills.0.outputModes", "z", "1", TRANSLATE_LINES[4][0], TRANSLATE_LINES[4][1]);
  }

  const FULL := Card("a", "b", "c", "d", "e", ["f"], [], "g", ["h"], ["i"])

  const FULL_LINES := [
    ["agent:1:a\n"],
    ["name:1:b\n"],
    ["description:1:c\n"],
    ["version:1:d\n"],
    ["url:1:e\n"],
    ["capabilities.count:1\n", "capabilities.0:1:f\n"],
    ["skills.count:0\n"],
    ["probeTarget:1:g\n"],
    ["currencies.count:1\n", "currencies.0:1:h\n"],
    ["settlementModes.count:1\n", "settlementModes.0:1:i\n"]]

  lemma FullScalars()
    ensures Field("agent", "a") == "agent:1:a\n" && Field("name", "b") == "name:1:b\n" && Field("description", "c") == "description:1:c\n"
    ensures Field("version", "d") == "version:1:d\n" && Field("url", "e") == "url:1:e\n" && Field("probeTarget", "g") == "probeTarget:1:g\n"
  {
    Decimals();
    hide Digits;
    FieldLine("agent", "a", "1");
    FieldLine("name", "b", "1");
    FieldLine("description", "c", "1");
    FieldLine("version", "d", "1");
    FieldLine("url", "e", "1");
    FieldLine("probeTarget", "g", "1");
  }

  lemma FullLists()
    ensures List("capabilities", ["f"]) == Cat(FULL_LINES[5])
    ensures List("currencies", ["h"]) == Cat(FULL_LINES[8])
    ensures List("settlementModes", ["i"]) == Cat(FULL_LINES[9])
  {
    Decimals();
    hide Digits, List, Cat;
    OneListed("capabilities", "f", "1", FULL_LINES[5][0], FULL_LINES[5][1]);
    OneListed("currencies", "h", "1", FULL_LINES[8][0], FULL_LINES[8][1]);
    OneListed("settlementModes", "i", "1", FULL_LINES[9][0], FULL_LINES[9][1]);
  }

  lemma FullBlocks()
    ensures Blocks(CardParts(FULL), FULL_LINES)
  {
    FullScalars();
    FullLists();
    NoSkills();
    hide Field, List, Skills, Cat;
    forall i | 0 <= i < 10 && |FULL_LINES[i]| == 1 ensures Cat(FULL_LINES[i]) == FULL_LINES[i][0] {
      OneLine(FULL_LINES[i][0]);
    }
  }

  lemma FullNormal()
    ensures Normal(CardStatement(AT, FULL)) == CardStatement(AT, FULL)
  {
    hide StableSort;
    OneSorted("f");
    OneSorted("h");
    OneSorted("i");
    NoneStable();
    hide SortedUnique;
  }

  /** A card's fields, each told from the others. */
  lemma FullCardText()
    ensures Encode(CardStatement(AT, FULL)) == Cat(CARD_HEADER + Flat(FULL_LINES))
  {
    hide Cat, Flat, Header, Blocks, Normal, CardParts;
    FullNormal();
    CardHeader();
    FullBlocks();
    TextOf(Header("agent-card", AT), CardParts(FULL), CARD_HEADER, FULL_LINES);
  }

  // ---------------------------------------------------------------- an offer

  const ASKED := Offer("o", "KEY", "", "ask", ["b", "a", "b"], "MINT", "6", "10", "0.00001", ["offchain"])

  const OFFER_HEADER := ["vtessera/attest/v1\n", "kind:offer\n", "signedAt:20:2026-10-04T12:00:00Z\n"]

  const OFFER_LINES := [
    ["offer:1:o\n"],
    ["seller:3:KEY\n"],
    ["description:0:\n"],
    ["direction:3:ask\n"],
    ["capabilities.count:2\n", "capabilities.0:1:a\n", "capabilities.1:1:b\n"],
    ["mint:4:MINT\n"],
    ["scale:1:6\n"],
    ["amountBaseUnits:2:10\n"],
    ["unitAmount:7:0.00001\n"],
    ["settlementModes.count:1\n", "settlementModes.0:8:offchain\n"]]

  lemma OfferScalars()
    ensures Field("offer", "o") == "offer:1:o\n" && Field("seller", "KEY") == "seller:3:KEY\n"
    ensures Field("direction", "ask") == "direction:3:ask\n" && Field("mint", "MINT") == "mint:4:MINT\n"
    ensures Field("scale", "6") == "scale:1:6\n" && Field("amountBaseUnits", "10") == "amountBaseUnits:2:10\n"
    ensures Field("unitAmount", "0.00001") == "unitAmount:7:0.00001\n"
  {
    Decimals();
    assert Digits(7) == "7";
    hide Digits;
    FieldLine("offer", "o", "1");
    FieldLine("seller", "KEY", "3");
    FieldLine("direction", "ask", "3");
    FieldLine("mint", "MINT", "4");
    FieldLine("scale", "6", "1");
    FieldLine("amountBaseUnits", "10", "2");
    FieldLine("unitAmount", "0.00001", "7");
  }

  lemma OfferHeader()
    ensures Header("offer", AT) == Cat(OFFER_HEADER)
  {
    Decimals();
    hide Digits, Cat;
    HeaderLines("offer", AT, "20");
    assert "kind:" + "offer" + "\n" == "kind:offer\n";
    assert "signedAt:" + "20" + ":" + AT + "\n" == "signedAt:20:2026-10-04T12:00:00Z\n";
  }

  const SORTED := Offer("o", "KEY", "", "ask", ["a", "b"], "MINT", "6", "10", "0.00001", ["offchain"])

  lemma OfferBlocks()
    ensures Blocks(OfferParts(SORTED), OFFER_LINES)
  {
    OfferScalars();
    ScalarLines();
    PlainLists();
    hide Field, List, Cat;
    forall i | 0 <= i < 10 && |OFFER_LINES[i]| == 1 ensures Cat(OFFER_LINES[i]) == OFFER_LINES[i][0] {
      OneLine(OFFER_LINES[i][0]);
    }
  }

  lemma OfferNormal()
    ensures Normal(OfferStatement(AT, ASKED)) == OfferStatement(AT, SORTED)
  {
    TwoSorted(["b", "a", "b"], "a", "b");
    OneSorted("offchain");
    hide SortedUnique;
  }

  /** An offer's encoding, its capabilities given out of order and one of them twice. */
  lemma OfferText()
    ensures Encode(OfferStatement(AT, ASKED)) == Cat(OFFER_HEADER + Flat(OFFER_LINES))
  {
    hide Cat, Flat, Header, Blocks, Normal, OfferParts;
    OfferNormal();
    OfferHeader();
    OfferBlocks();
    TextOf(Header("offer", AT), OfferParts(SORTED), OFFER_HEADER, OFFER_LINES);
  }

  // ---------------------------------------------------------------- a probe

  const PROBED := Probe("KEY", "https://x/", AT, [ProbeResult("a", "pass", "")])

  const PROBE_HEADER := ["vtessera/attest/v1\n", "kind:probe\n", "signedAt:20:2026-10-04T12:00:00Z\n"]

  const PROBE_LINES := [
    ["agent:3:KEY\n"],
    ["target:10:https://x/\n"],
    ["checkedAt:20:2026-10-04T12:00:00Z\n"],
    ["results.count:1\n", "results.0.capability:1:a\n", "results.0.status:4:pass\n", "results.0.detail:0:\n"]]

  lemma ProbeScalars()
    ensures Field("target", "https://x/") == "target:10:https://x/\n"
    ensures Field("checkedAt", AT) == "checkedAt:20:2026-10-04T12:00:00Z\n"
  {
    Decimals();
    hide Digits;
    FieldLine("target", "https://x/", "10");
    FieldLine("checkedAt", AT, "20");
  }

  lemma ResultLines()
    ensures Field("results.0" + ".capability", "a") == "results.0.capability:1:a\n"
    ensures Field("results.0" + ".status", "pass") == "results.0.status:4:pass\n"
    ensures Field("results.0" + ".detail", "") == "results.0.detail:0:\n"
  {
    Decimals();
    hide Digits;
    FieldLine("results.0" + ".capability", "a", "1");
    FieldLine("results.0" + ".status", "pass", "4");
    FieldLine("results.0" + ".detail", "", "0");
  }

  lemma OneResult()
    ensures Results("results", PROBED.results) == Cat(PROBE_LINES[3])
  {
    Decimals();
    ResultLines();
    CountLine("results", 1, "1");
    assert "results" + ".count:" + "1" + "\n" == "results.count:1\n";
    assert Item("results", 0) == "results.0" by { assert "results" + "." + "0" == "results.0"; }
    hide Digits, Count, Item, Field;
    var texts := ResultTexts("results", PROBED.results);
    OneLine(texts[0]);
    assert texts == [texts[0]];
    assert texts[0] == Cat(PROBE_LINES[3][1..]);
    hide ResultTexts;
  }

  lemma ProbeHeader()
    ensures Header("probe", AT) == Cat(PROBE_HEADER)
  {
    Decimals();
    hide Digits, Cat;
    HeaderLines("probe", AT, "20");
    assert "kind:" + "probe" + "\n" == "kind:probe\n";
    assert "signedAt:" + "20" + ":" + AT + "\n" == "signedAt:20:2026-10-04T12:00:00Z\n";
  }

  lemma ProbeBlocks()
    ensures Blocks(ProbeParts(PROBED), PROBE_LINES)
  {
    ScalarLines();
    ProbeScalars();
    OneResult();
    hide Field, Results, Cat;
    OneLine(PROBE_LINES[0][0]);
    OneLine(PROBE_LINES[1][0]);
    OneLine(PROBE_LINES[2][0]);
  }

  lemma ProbeNormal()
    ensures Normal(ProbeStatement(AT, PROBED)) == ProbeStatement(AT, PROBED)
  {
    assert PROBED.results[1..] == [];
    assert StableSort(PROBED.results, ResultKey) == PROBED.results;
  }

  /** A report's encoding. */
  lemma ProbeText()
    ensures Encode(ProbeStatement(AT, PROBED)) == Cat(PROBE_HEADER + Flat(PROBE_LINES))
  {
    hide Cat, Flat, Header, Blocks, Normal, ProbeParts;
    ProbeNormal();
    ProbeHeader();
    ProbeBlocks();
    TextOf(Header("probe", AT), ProbeParts(PROBED), PROBE_HEADER, PROBE_LINES);
  }
}
