/** The second implementation of the card encoding, on Unicode strings. It sorts by code
    point where the first sorts by byte; UTF-8 makes the two orders one (RFC 3629,
    section 1, with the encoding of section 3), so both write the same bytes. */
module Quickstart {
  import opened Ordering
  import opened Attest

  // ---------------------------------------------------------------- UTF-8

  /** A byte as the character of its value. */
  function Byte(n: nat): char
    requires n < 256
  {
    n as char
  }

  function Utf8Char(c: char): (bytes: string)
    ensures bytes != ""
  {
    var n := c as int;
    if n < 0x80 then [Byte(n)]
    else if n < 0x800 then [Byte(0xC0 + n / 64), Byte(0x80 + n % 64)]
    else if n < 0x1_0000 then [Byte(0xE0 + n / 64 / 64), Byte(0x80 + n / 64 % 64), Byte(0x80 + n % 64)]
    else [Byte(0xF0 + n / 64 / 64 / 64), Byte(0x80 + n / 64 / 64 % 64), Byte(0x80 + n / 64 % 64), Byte(0x80 + n % 64)]
  }

  function Utf8(s: string): string
  {
    if s == "" then "" else Utf8Char(s[0]) + Utf8(s[1..])
  }

  /** The table of RFC 3629, section 3: how many bytes, what leads them, and the number read
      back from them. */
  lemma Utf8Reads(c: char)
    ensures var n, b := c as int, Utf8Char(c);
            if n < 0x80 then |b| == 1 && b[0] as int == n
            else if n < 0x800 then
              |b| == 2 && 0xC2 <= b[0] as int < 0xE0 && 0x80 <= b[1] as int < 0xC0
              && (b[0] as int - 0xC0) * 64 + (b[1] as int - 0x80) == n
            else if n < 0x1_0000 then
              |b| == 3 && 0xE0 <= b[0] as int < 0xF0 && 0x80 <= b[1] as int < 0xC0 && 0x80 <= b[2] as int < 0xC0
              && ((b[0] as int - 0xE0) * 64 + (b[1] as int - 0x80)) * 64 + (b[2] as int - 0x80) == n
            else
              |b| == 4 && 0xF0 <= b[0] as int < 0xF5 && 0x80 <= b[1] as int < 0xC0 && 0x80 <= b[2] as int < 0xC0
              && 0x80 <= b[3] as int < 0xC0
              && (((b[0] as int - 0xF0) * 64 + (b[1] as int - 0x80)) * 64 + (b[2] as int - 0x80)) * 64 + (b[3] as int - 0x80) == n
  {
  }

  lemma {:induction false} BeforeAt(a: string, b: string, k: nat)
    requires k < |a| && k < |b| && a[..k] == b[..k] && a[k] < b[k]
    ensures Before(a, b)
  {
    if k > 0 {
      assert a[0] == a[..k][0] == b[..k][0] == b[0];
      assert a[1..][..k - 1] == a[..k][1..] == b[..k][1..] == b[1..][..k - 1];
      BeforeAt(a[1..], b[1..], k - 1);
    }
  }

  lemma Sextet(m: nat, n: nat)
    requires m < n
    ensures m / 64 < n / 64 || (m / 64 == n / 64 && m % 64 < n % 64)
  {
  }

  lemma OrderOfTwo(c: char, d: char) returns (k: nat)
    requires 0x80 <= c as int < d as int < 0x800
    ensures k < 2 && |Utf8Char(c)| == |Utf8Char(d)| == 2
    ensures Utf8Char(c)[..k] == Utf8Char(d)[..k] && Utf8Char(c)[k] < Utf8Char(d)[k]
  {
    Sextet(c as int, d as int);
    k := if c as int / 64 < d as int / 64 then 0 else 1;
  }

  lemma OrderOfThree(c: char, d: char) returns (k: nat)
    requires 0x800 <= c as int < d as int < 0x1_0000
    ensures k < 3 && |Utf8Char(c)| == |Utf8Char(d)| == 3
    ensures Utf8Char(c)[..k] == Utf8Char(d)[..k] && Utf8Char(c)[k] < Utf8Char(d)[k]
  {
    var m, n := c as int, d as int;
    Sextet(m, n);
    if m / 64 < n / 64 {
      Sextet(m / 64, n / 64);
      k := if m / 64 / 64 < n / 64 / 64 then 0 else 1;
    } else {
      k := 2;
    }
  }

  lemma OrderOfFour(c: char, d: char) returns (k: nat)
    requires 0x1_0000 <= c as int < d as int
    ensures k < 4 && |Utf8Char(c)| == |Utf8Char(d)| == 4
    ensures Utf8Char(c)[..k] == Utf8Char(d)[..k] && Utf8Char(c)[k] < Utf8Char(d)[k]
  {
    var m, n := c as int, d as int;
    Sextet(m, n);
    if m / 64 < n / 64 {
      Sextet(m / 64, n / 64);
      if m / 64 / 64 < n / 64 / 64 {
        Sextet(m / 64 / 64, n / 64 / 64);
        k := if m / 64 / 64 / 64 < n / 64 / 64 / 64 then 0 else 1;
      } else {
        k := 2;
      }
    } else {
      k := 3;
    }
  }

  /** Longer encodings start with a larger byte. */
  lemma LongerIsLater(c: char, d: char)
    requires c < d && |Utf8Char(c)| != |Utf8Char(d)|
    ensures Utf8Char(c)[0] < Utf8Char(d)[0]
  {
  }

  /** The first byte in which two characters' encodings differ decides their order. */
  lemma CharOrder(c: char, d: char) returns (k: nat)
    requires c < d
    ensures k < |Utf8Char(c)| && k < |Utf8Char(d)|
    ensures Utf8Char(c)[..k] == Utf8Char(d)[..k] && Utf8Char(c)[k] < Utf8Char(d)[k]
  {
    if |Utf8Char(c)| != |Utf8Char(d)| {
      LongerIsLater(c, d);
      k := 0;
    } else if c as int < 0x80 {
      k := 0;
    } else if c as int < 0x800 {
      k := OrderOfTwo(c, d);
    } else if c as int < 0x1_0000 {
      k := OrderOfThree(c, d);
    } else {
      k := OrderOfFour(c, d);
    }
  }

  lemma {:induction false} CommonPrefix(p: string, x: string, y: string)
    ensures Before(p + x, p + y) <==> Before(x, y)
  {
    if p == "" {
      assert p + x == x && p + y == y;
    } else {
      assert (p + x)[1..] == p[1..] + x && (p + y)[1..] == p[1..] + y;
      CommonPrefix(p[1..], x, y);
    }
  }

  lemma EarlierChar(c: char, d: char, x: string, y: string)
    requires c < d
    ensures Before(Utf8Char(c) + x, Utf8Char(d) + y)
  {
    var k := CharOrder(c, d);
    hide Utf8Char;
    var a, b := Utf8Char(c) + x, Utf8Char(d) + y;
    assert a[..k] == Utf8Char(c)[..k] && b[..k] == Utf8Char(d)[..k];
    BeforeAt(a, b, k);
  }

  /** Code-point order and UTF-8 byte order agree. */
  lemma {:induction false} Utf8KeepsOrder(a: string, b: string)
    ensures Before(a, b) <==> Before(Utf8(a), Utf8(b))
  {
    hide Utf8Char;
    if a != "" && b != "" {
      if a[0] < b[0] {
        EarlierChar(a[0], b[0], Utf8(a[1..]), Utf8(b[1..]));
      } else if b[0] < a[0] {
        EarlierChar(b[0], a[0], Utf8(b[1..]), Utf8(a[1..]));
        BeforeIsTotal(Utf8(a), Utf8(b));
      } else {
        Utf8KeepsOrder(a[1..], b[1..]);
        CommonPrefix(Utf8Char(a[0]), Utf8(a[1..]), Utf8(b[1..]));
      }
    }
  }

  lemma Utf8IsInjective(a: string, b: string)
    ensures Utf8(a) == Utf8(b) <==> a == b
  {
    Utf8KeepsOrder(a, b);
    Utf8KeepsOrder(b, a);
    BeforeIsTotal(a, b);
    BeforeIsTotal(Utf8(a), Utf8(b));
  }

  lemma {:induction false} Utf8Joins(a: string, b: string)
    ensures Utf8(a + b) == Utf8(a) + Utf8(b)
  {
    hide Utf8Char;
    if a == "" {
      assert a + b == b;
    } else {
      assert (a + b)[1..] == a[1..] + b;
      Utf8Joins(a[1..], b);
    }
  }

  // ---------------------------------------------------------------- mapping through sorts

  function Mapped<T, U>(xs: seq<T>, f: T -> U): (ys: seq<U>)
    ensures |ys| == |xs|
  {
    if xs == [] then [] else [f(xs[0])] + Mapped(xs[1..], f)
  }

  lemma {:induction false} MappedAt<T, U>(xs: seq<T>, f: T -> U, i: nat)
    requires i < |xs|
    ensures Mapped(xs, f)[i] == f(xs[i])
  {
    if i > 0 { MappedAt(xs[1..], f, i - 1); }
  }

  predicate OrderAt<T, U>(key: T -> string, f: T -> U, key': U -> string, x: T, y: T)
  {
    Before(key(x), key(y)) <==> Before(key'(f(x)), key'(f(y)))
  }

  /** Renaming by f keeps the order of keys. */
  ghost predicate SameOrder<T(!new), U>(key: T -> string, f: T -> U, key': U -> string)
  {
    forall x, y :: OrderAt(key, f, key', x, y)
  }

  lemma {:induction false} InsertMaps<T(!new), U>(x: T, ys: seq<T>, key: T -> string, f: T -> U, key': U -> string)
    requires SameOrder(key, f, key')
    ensures Insert(f(x), Mapped(ys, f), key') == Mapped(Insert(x, ys, key), f)
  {
    if ys != [] {
      assert OrderAt(key, f, key', ys[0], x);
      if Before(key(ys[0]), key(x)) {
        InsertMaps(x, ys[1..], key, f, key');
      }
    }
  }

  /** A stable sort commutes with any renaming that keeps the order of keys. */
  lemma {:induction false} SortMaps<T(!new), U>(xs: seq<T>, key: T -> string, f: T -> U, key': U -> string)
    requires SameOrder(key, f, key')
    ensures StableSort(Mapped(xs, f), key') == Mapped(StableSort(xs, key), f)
  {
    if xs != [] {
      SortMaps(xs[1..], key, f, key');
      InsertMaps(xs[0], StableSort(xs[1..], key), key, f, key');
    }
  }

  lemma {:induction false} MappedLast<T, U>(xs: seq<T>, f: T -> U)
    requires xs != []
    ensures Mapped(xs, f) == Mapped(xs[..|xs| - 1], f) + [f(xs[|xs| - 1])]
  {
    if |xs| > 1 {
      MappedLast(xs[1..], f);
      assert xs[1..][..|xs| - 2] == xs[..|xs| - 1][1..];
    }
  }

  lemma MappedContains(xs: seq<string>, x: string)
    ensures Utf8(x) in Mapped(xs, Utf8) <==> x in xs
  {
    if x in xs {
      var i :| 0 <= i < |xs| && xs[i] == x;
      MappedAt(xs, Utf8, i);
    }
    if Utf8(x) in Mapped(xs, Utf8) {
      var i :| 0 <= i < |xs| && Mapped(xs, Utf8)[i] == Utf8(x);
      MappedAt(xs, Utf8, i);
      Utf8IsInjective(xs[i], x);
    }
  }

  lemma {:induction false} DedupMaps(xs: seq<string>)
    ensures Dedup(Mapped(xs, Utf8)) == Mapped(Dedup(xs), Utf8)
    decreases |xs|
  {
    hide Utf8;
    if xs != [] {
      var n := |xs| - 1;
      MappedLast(xs, Utf8);
      DedupMaps(xs[..n]);
      var before := Dedup(xs[..n]);
      MappedContains(before, xs[n]);
      if xs[n] !in before {
        MappedLast(before + [xs[n]], Utf8);
        assert (before + [xs[n]])[..|before|] == before;
      }
      assert Mapped(xs, Utf8)[..n] == Mapped(xs[..n], Utf8);
    }
  }

  /** Sorting the texts then encoding, or encoding then sorting the bytes. */
  lemma SortedUniqueMaps(xs: seq<string>)
    ensures SortedUnique(Mapped(xs, Utf8)) == Mapped(SortedUnique(xs), Utf8)
  {
    hide Utf8, Dedup, StableSort, Before;
    DedupMaps(xs);
    OrderKept();
    SortMaps(Dedup(xs), Itself, Utf8, Itself);
  }

  lemma OrderKept()
    ensures SameOrder(Itself, Utf8, Itself)
  {
    hide Utf8, Before;
    forall x: string, y: string ensures OrderAt(Itself, Utf8, Itself, x, y) {
      Utf8KeepsOrder(x, y);
    }
  }

  // ---------------------------------------------------------------- skills

  function SkillUtf8(s: Skill): Skill
  {
    Skill(Utf8(s.id), Utf8(s.name), Mapped(s.tags, Utf8), Mapped(s.input, Utf8), Mapped(s.output, Utf8))
  }

  /** The key the second implementation sorts skills by. */
  function TextKey(s: Skill): string
  {
    Join([s.id, s.name, Join(SortedUnique(s.tags)), Join(SortedUnique(s.input)), Join(SortedUnique(s.output))])
  }

  function Emitted(s: Skill): Skill { NormalSkill(SkillUtf8(s)) }

  lemma {:induction false} JoinMaps(parts: seq<string>)
    ensures Join(Mapped(parts, Utf8)) == Utf8(Join(parts))
  {
    hide Utf8;
    if parts == [] {
      EmptyUtf8();
    } else if |parts| == 1 {
      assert Mapped(parts, Utf8) == [Utf8(parts[0])];
    } else {
      JoinMaps(parts[1..]);
      assert Mapped(parts, Utf8)[1..] == Mapped(parts[1..], Utf8);
      Utf8Joins(parts[0] + NUL, Join(parts[1..]));
      Utf8Joins(parts[0], NUL);
      NulUtf8();
    }
  }

  lemma EmptyUtf8()
    ensures Utf8("") == ""
  {
  }

  lemma NulUtf8()
    ensures Utf8(NUL) == NUL
  {
    assert NUL[1..] == "";
  }

  lemma KeyMaps(s: Skill)
    ensures SkillKey(Emitted(s)) == Utf8(TextKey(s))
  {
    hide Utf8, SortedUnique, Join;
    SortedUniqueMaps(s.tags);
    SortedUniqueMaps(s.input);
    SortedUniqueMaps(s.output);
    JoinMaps(SortedUnique(s.tags));
    JoinMaps(SortedUnique(s.input));
    JoinMaps(SortedUnique(s.output));
    var parts := [s.id, s.name, Join(SortedUnique(s.tags)), Join(SortedUnique(s.input)), Join(SortedUnique(s.output))];
    JoinMaps(parts);
    MappedFive(parts);
  }

  lemma MappedFive(p: seq<string>)
    requires |p| == 5
    ensures Mapped(p, Utf8) == [Utf8(p[0]), Utf8(p[1]), Utf8(p[2]), Utf8(p[3]), Utf8(p[4])]
  {
    hide Utf8;
    MappedAt(p, Utf8, 0);
    MappedAt(p, Utf8, 1);
    MappedAt(p, Utf8, 2);
    MappedAt(p, Utf8, 3);
    MappedAt(p, Utf8, 4);
  }

  lemma {:induction false} NormalSkillsAreMapped(skills: seq<Skill>)
    ensures NormalSkills(Mapped(skills, SkillUtf8)) == Mapped(skills, Emitted)
  {
    hide SkillUtf8, NormalSkill;
    if skills != [] { NormalSkillsAreMapped(skills[1..]); }
  }

  /** Both sorts are stable on keys in the same order, so the lists agree element by element. */
  lemma SkillsAgree(skills: seq<Skill>)
    ensures StableSort(NormalSkills(Mapped(skills, SkillUtf8)), SkillKey) == Mapped(StableSort(skills, TextKey), Emitted)
  {
    hide Emitted, TextKey, SkillKey;
    NormalSkillsAreMapped(skills);
    forall x, y ensures OrderAt(TextKey, Emitted, SkillKey, x, y) {
      KeyMaps(x);
      KeyMaps(y);
      Utf8KeepsOrder(TextKey(x), TextKey(y));
    }
    SortMaps(skills, TextKey, Emitted, SkillKey);
  }

  // ---------------------------------------------------------------- the second encoder

  /** A card's texts as bytes. */
  function CardUtf8(c: Card): Card
  {
    Card(Utf8(c.agent), Utf8(c.name), Utf8(c.description), Utf8(c.version), Utf8(c.url),
         Mapped(c.capabilities, Utf8), Mapped(c.skills, SkillUtf8), Utf8(c.probeTarget),
         Mapped(c.currencies, Utf8), Mapped(c.modes, Utf8))
  }

  /** The length is in bytes, not characters. */
  method FieldBytes(name: string, value: string) returns (out: string)
    ensures out == Field(name, Utf8(value))
  {
    var raw := Utf8(value);
    out := name + ":" + Digits(|raw|) + ":" + raw + "\n";
  }

  method Listing(name: string, values: seq<string>) returns (out: string)
    ensures out == List(name, SortedUnique(Mapped(values, Utf8)))
  {
    hide Field, Count, SortedUnique, Utf8;
    SortedUniqueMaps(values);
    var unique := SortedUnique(values);
    ghost var bytes := Mapped(unique, Utf8);
    out := Count(name, |unique|);
    ghost var parts := Items(name, bytes);
    for i := 0 to |unique|
      invariant out == Count(name, |unique|) + Cat(parts[..i])
    {
      var part := FieldBytes(Item(name, i), unique[i]);
      MappedAt(unique, Utf8, i);
      CatExtends(Count(name, |unique|), parts[..i], part);
      assert parts[..i + 1] == parts[..i] + [part];
      out := out + part;
    }
    assert parts[..|unique|] == parts;
  }

  method SkillBytes(prefix: string, s: Skill) returns (out: string)
    ensures out == Cat(SkillParts(prefix, Emitted(s)))
  {
    hide Field, List, SortedUnique, Utf8;
    var id := FieldBytes(prefix + ".id", s.id);
    var name := FieldBytes(prefix + ".name", s.name);
    var tags := Listing(prefix + ".tags", s.tags);
    var ins := Listing(prefix + ".inputModes", s.input);
    var outs := Listing(prefix + ".outputModes", s.output);
    out := "";
    out := out + id;
    out := out + name;
    out := out + tags;
    out := out + ins;
    out := out + outs;
    CatOfFive("", SkillParts(prefix, Emitted(s)));
    assert "" + Cat(SkillParts(prefix, Emitted(s))) == Cat(SkillParts(prefix, Emitted(s)));
  }

  method SkillsBytes(skills: seq<Skill>) returns (out: string)
    ensures out == Skills("skills", StableSort(NormalSkills(Mapped(skills, SkillUtf8)), SkillKey))
  {
    hide Count, SkillParts, Emitted, TextKey, SkillKey, StableSort;
    SkillsAgree(skills);
    var ordered := StableSort(skills, TextKey);
    ghost var parts := SkillTexts("skills", Mapped(ordered, Emitted));
    out := Count("skills", |ordered|);
    for i := 0 to |ordered|
      invariant out == Count("skills", |ordered|) + Cat(parts[..i])
    {
      var part := SkillBytes(Item("skills", i), ordered[i]);
      MappedAt(ordered, Emitted, i);
      CatExtends(Count("skills", |ordered|), parts[..i], part);
      assert parts[..i + 1] == parts[..i] + [part];
      out := out + part;
    }
    assert parts[..|ordered|] == parts;
  }

  /** Written a second time, in another language, on Unicode texts: the same bytes. */
  method CardTextBytes(card: Card, signedAt: string) returns (out: string)
    ensures out == Encode(CardStatement(Utf8(signedAt), CardUtf8(card)))
  {
    hide Field, List, Skills, SortedUnique, StableSort, NormalSkills, Cat, Utf8, Mapped;
    var at := FieldBytes("signedAt", signedAt);
    var agent := FieldBytes("agent", card.agent);
    var name := FieldBytes("name", card.name);
    var description := FieldBytes("description", card.description);
    var version := FieldBytes("version", card.version);
    var url := FieldBytes("url", card.url);
    var capabilities := Listing("capabilities", card.capabilities);
    var skills := SkillsBytes(card.skills);
    var target := FieldBytes("probeTarget", card.probeTarget);
    var currencies := Listing("currencies", card.currencies);
    var modes := Listing("settlementModes", card.modes);
    out := CANONICAL_FORM + "\n" + "kind:" + "agent-card" + "\n" + at;
    out := out + agent + name + description + version + url + capabilities + skills + target + currencies + modes;
    CatOfTen(Header("agent-card", Utf8(signedAt)), CardParts(Normal(CardStatement(Utf8(signedAt), CardUtf8(card))).card));
  }
}
