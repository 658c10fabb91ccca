/** The identifier recogniser of the state-event listener: the anchored
    pattern
      ^(sensor|switch|text(_sensor)?|number|binary_sensor|button)-b2500_-_(\d)_-_(.*)__(.*)$
    written as a structured parser, together with a declarative reading of
    what the pattern accepts, and the proof that the two agree. */
module Identifier {
  import opened JsValues

  /** The device family whose entities this dashboard shows; fixed in the pattern. */
  const FamilyTag: string := "b2500"

  /** The seven entity classes the pattern's first group admits. */
  const SensorClasses: set<string> :=
    {"sensor", "switch", "text", "text_sensor", "number", "binary_sensor", "button"}

  /** `.` in a regular expression without the `s` flag matches every
      character except these four line terminators. */
  predicate IsLineTerminator(c: char)
  {
    c == '\n' || c == '\r' || c == '\U{2028}' || c == '\U{2029}'
  }

  predicate NoLineTerminator(s: string)
  {
    forall i :: 0 <= i < |s| ==> !IsLineTerminator(s[i])
  }

  /** The four capture groups that matter: the class, the slot digit, the
      free-form name and the attribute id. */
  datatype Parsed = Parsed(sensorClass: string, slot: char, name: string, attr: string)

  /** The identifier a parse stands for. */
  function Compose(p: Parsed): string
  {
    p.sensorClass + ("-" + (SlotLead + ([p.slot] + ("_-_" + Tail(p)))))
  }

  /** The text the name and attribute groups cover. */
  function Tail(p: Parsed): string
  {
    p.name + ("__" + p.attr)
  }

  /** `s` holds `__` at position `k`. */
  predicate PairAt(s: string, k: int)
  {
    0 <= k && k + 2 <= |s| && s[k] == '_' && s[k + 1] == '_'
  }

  /** The declarative meaning of the pattern: `id` is the composition of the
      groups, each group is drawn from what the pattern admits there, and the
      name group is the longest possible one (`.*` is greedy, so the
      attribute id follows the LAST `__`). */
  ghost predicate Denotes(id: string, p: Parsed)
  {
    && p.sensorClass in SensorClasses
    && IsDigit(p.slot)
    && NoLineTerminator(p.name)
    && NoLineTerminator(p.attr)
    && id == Compose(p)
    && forall k :: |p.name| < k ==> !PairAt(Tail(p), k)
  }

  /** Last position of `__` in `s`. */
  function LastPair(s: string): (r: Option<nat>)
    ensures r.Some? ==> PairAt(s, r.value) && forall j :: r.value < j ==> !PairAt(s, j)
    ensures r.None? ==> forall j :: !PairAt(s, j)
  {
    if |s| < 2 then None
    else if s[|s| - 2] == '_' && s[|s| - 1] == '_' then Some(|s| - 2)
    else
      var r := LastPair(s[..|s| - 1]);
      assert forall j :: PairAt(s, j) && j < |s| - 2 ==> PairAt(s[..|s| - 1], j);
      r
  }

  /** The text the pattern requires between the class and the slot digit. */
  const SlotLead: string := FamilyTag + "_-_"

  /** Splits the text after the slot's `_-_` into the name and attribute
      groups: it must be free of line terminators and contain `__`, and it is
      split at the last `__`. */
  function MatchTail(rest: string): (r: Option<(string, string)>)
    ensures r.Some? ==> rest == r.value.0 + ("__" + r.value.1)
  {
    if !NoLineTerminator(rest) then None
    else
      match LastPair(rest)
      case None => None
      case Some(k) =>
        assert rest == rest[..k] + (rest[k..k + 2] + rest[k + 2..]);
        Some((rest[..k], rest[k + 2..]))
  }

  /** Matches the text after the class's `-`: `b2500_-_`, one digit, `_-_`
      and a tail for `MatchTail`. */
  function MatchAfterClass(cls: string, after: string): (r: Option<Parsed>)
    ensures r.Some? ==> r.value.sensorClass == cls
    ensures r.Some? ==> after == SlotLead + ([r.value.slot] + ("_-_" + Tail(r.value)))
  {
    var n := |SlotLead|;
    if |after| < n + 4 || after[..n] != SlotLead || !IsDigit(after[n]) || after[n + 1..n + 4] != "_-_" then None
    else
      match MatchTail(after[n + 4..])
      case None => None
      case Some((name, attr)) =>
        assert after == after[..n] + ([after[n]] + (after[n + 1..n + 4] + after[n + 4..]));
        Some(Parsed(cls, after[n], name, attr))
  }

  /** `id.match(regexp)`: the groups of the match, or `None` when the
      identifier does not match. The class is the text before the first `-`
      (no admitted class contains one); the rest is `MatchAfterClass`. */
  function Match(id: string): (r: Option<Parsed>)
    ensures r.Some? ==> Compose(r.value) == id
  {
    match IndexOf(id, '-')
    case None => None
    case Some(i) =>
      if id[..i] !in SensorClasses then None
      else
        assert id == id[..i] + ([id[i]] + id[i + 1..]);
        MatchAfterClass(id[..i], id[i + 1..])
  }

  lemma NoLineTerminatorConcat(a: string, b: string)
    ensures NoLineTerminator(a + b) <==> NoLineTerminator(a) && NoLineTerminator(b)
  {
    if NoLineTerminator(a + b) {
      forall i | 0 <= i < |a| ensures !IsLineTerminator(a[i]) {
        assert a[i] == (a + b)[i];
      }
      forall i | 0 <= i < |b| ensures !IsLineTerminator(b[i]) {
        assert b[i] == (a + b)[|a| + i];
      }
    }
  }

  /** What `Match` returns is exactly what the pattern captures. */
  lemma MatchSound(id: string)
    requires Match(id).Some?
    ensures Denotes(id, Match(id).value)
  {
    var p := Match(id).value;
    var i := IndexOf(id, '-').value;
    var after := id[i + 1..];
    var n := |SlotLead|;
    var rest := after[n + 4..];
    assert MatchAfterClass(id[..i], after) == Some(p);
    assert MatchTail(rest) == Some((p.name, p.attr));
    var k := LastPair(rest).value;
    assert rest == p.name + ("__" + p.attr);
    assert |p.name| == k;
    NoLineTerminatorConcat(p.name, "__" + p.attr);
    NoLineTerminatorConcat("__", p.attr);
  }

  lemma IndexOfAfterPrefix(a: string, b: string)
    requires '-' !in a
    ensures IndexOf(a + ("-" + b), '-') == Some(|a|)
  {
    var s := a + ("-" + b);
    assert s[|a|] == '-';
  }

  lemma LastPairIsGreatest(s: string, k: nat)
    requires PairAt(s, k)
    requires forall j :: k < j ==> !PairAt(s, j)
    ensures LastPair(s) == Some(k)
  {
  }

  lemma MatchTailComplete(name: string, attr: string)
    requires NoLineTerminator(name) && NoLineTerminator(attr)
    requires forall k :: |name| < k ==> !PairAt(name + ("__" + attr), k)
    ensures MatchTail(name + ("__" + attr)) == Some((name, attr))
  {
    var rest := name + ("__" + attr);
    NoLineTerminatorConcat(name, "__" + attr);
    NoLineTerminatorConcat("__", attr);
    assert PairAt(rest, |name|);
    LastPairIsGreatest(rest, |name|);
    assert rest[..|name|] == name;
    assert rest[|name| + 2..] == attr;
  }

  /** Every identifier of the pattern's shape is matched, with exactly its
      own groups; with `MatchSound` this makes the parse unique. */
  lemma MatchComplete(id: string, p: Parsed)
    requires Denotes(id, p)
    ensures Match(id) == Some(p)
  {
    var cls := p.sensorClass;
    assert '-' !in cls;
    var after := SlotLead + ([p.slot] + ("_-_" + Tail(p)));
    assert id == cls + ("-" + after);
    IndexOfAfterPrefix(cls, after);
    assert id[..|cls|] == cls;
    assert id[|cls| + 1..] == after;
    MatchAfterClassComplete(p);
    assert Match(id) == MatchAfterClass(cls, after);
  }

  /** The part of `MatchComplete` after the class. */
  lemma MatchAfterClassComplete(p: Parsed)
    requires IsDigit(p.slot) && NoLineTerminator(p.name) && NoLineTerminator(p.attr)
    requires forall k :: |p.name| < k ==> !PairAt(Tail(p), k)
    ensures MatchAfterClass(p.sensorClass, SlotLead + ([p.slot] + ("_-_" + Tail(p)))) == Some(p)
  {
    var after := SlotLead + ([p.slot] + ("_-_" + Tail(p)));
    var n := |SlotLead|;
    assert after[..n] == SlotLead;
    assert after[n] == p.slot;
    assert after[n + 1..n + 4] == "_-_";
    assert after[n + 4..] == Tail(p);
    MatchTailComplete(p.name, p.attr);
  }

  /** An identifier matches if and only if it has the pattern's shape. */
  lemma MatchIffDenotes(id: string)
    ensures Match(id).Some? <==> exists p :: Denotes(id, p)
  {
    if Match(id).Some? {
      MatchSound(id);
    } else if p :| Denotes(id, p) {
      MatchComplete(id, p);
    }
  }

  /** The attribute id is the text after the LAST `__`: a name that itself
      holds `__` stays in the name group. */
  lemma GreedyNameExample()
    ensures Match("sensor-b2500_-_1_-_a__b__c") == Some(Parsed("sensor", '1', "a__b", "c"))
  {
    var p := Parsed("sensor", '1', "a__b", "c");
    assert Tail(p) == "a__b__c";
    assert forall k :: 4 < k ==> !PairAt(Tail(p), k);
    assert "sensor" + ("-" + (SlotLead + (['1'] + ("_-_" + "a__b__c")))) == "sensor-b2500_-_1_-_a__b__c";
    MatchComplete("sensor-b2500_-_1_-_a__b__c", p);
  }

  /** Both the name and the attribute id may be empty. */
  lemma EmptyGroupsExample()
    ensures Match("binary_sensor-b2500_-_7_-___") == Some(Parsed("binary_sensor", '7', "", ""))
  {
    var p := Parsed("binary_sensor", '7', "", "");
    assert Compose(p) == "binary_sensor-b2500_-_7_-___";
    MatchComplete("binary_sensor-b2500_-_7_-___", p);
  }

  /** An identifier whose text before its first `-` is not one of the seven
      classes does not match. */
  lemma UnknownClassRejected(cls: string, rest: string)
    requires '-' !in cls && cls !in SensorClasses
    ensures Match(cls + ("-" + rest)).None?
  {
    IndexOfAfterPrefix(cls, rest);
    assert (cls + ("-" + rest))[..|cls|] == cls;
  }

  /** An identifier without any `-` does not match. */
  lemma NoClassSeparatorRejected(id: string)
    requires '-' !in id
    ensures Match(id).None?
  {
  }

  /** A family tag other than `b2500` is not matched. */
  lemma ForeignFamilyRejected(cls: string, after: string)
    requires '-' !in cls
    requires |after| < |SlotLead| || after[..|SlotLead|] != SlotLead
    ensures Match(cls + ("-" + after)).None?
  {
    IndexOfAfterPrefix(cls, after);
    assert (cls + ("-" + after))[..|cls|] == cls;
    assert (cls + ("-" + after))[|cls| + 1..] == after;
  }

  /** The slot is ONE digit: a second digit where `_-_` must follow is rejected. */
  lemma MultiDigitSlotRejected(cls: string, d1: char, d2: char, tail: string)
    requires '-' !in cls && IsDigit(d2)
    ensures Match(cls + ("-" + (SlotLead + ([d1, d2] + tail)))).None?
  {
    var after := SlotLead + ([d1, d2] + tail);
    IndexOfAfterPrefix(cls, after);
    assert (cls + ("-" + after))[..|cls|] == cls;
    assert (cls + ("-" + after))[|cls| + 1..] == after;
    assert after[|SlotLead| + 1] == d2;
  }

  /** Without a `__` after the slot's `_-_` there is no attribute id, so no match. */
  lemma NoAttributeSeparatorRejected(cls: string, slot: char, tail: string)
    requires '-' !in cls
    requires forall j :: !PairAt(tail, j)
    ensures Match(cls + ("-" + (SlotLead + ([slot] + ("_-_" + tail))))).None?
  {
    var after := SlotLead + ([slot] + ("_-_" + tail));
    IndexOfAfterPrefix(cls, after);
    assert (cls + ("-" + after))[..|cls|] == cls;
    assert (cls + ("-" + after))[|cls| + 1..] == after;
    assert after[|SlotLead| + 4..] == tail;
  }

  /** A line terminator anywhere after the slot's `_-_` defeats both `.*` groups. */
  lemma LineTerminatorRejected(cls: string, slot: char, tail: string)
    requires '-' !in cls
    requires !NoLineTerminator(tail)
    ensures Match(cls + ("-" + (SlotLead + ([slot] + ("_-_" + tail))))).None?
  {
    var after := SlotLead + ([slot] + ("_-_" + tail));
    IndexOfAfterPrefix(cls, after);
    assert (cls + ("-" + after))[..|cls|] == cls;
    assert (cls + ("-" + after))[|cls| + 1..] == after;
    assert after[|SlotLead| + 4..] == tail;
  }
}

/** `escapeRegex`: prefixes every regular-expression metacharacter with a
    backslash. The listener does not use it; the family tag it would escape
    is written into the pattern literally. */
module RegexEscape {
  import Identifier

  /** The sixteen characters `escapeRegex` prefixes with a backslash. */
  const RegexMeta: set<char> :=
    {'/', '-', '\\', '^', '$', '*', '+', '?', '.', '(', ')', '|', '[', ']', '{', '}'}

  /** Number of metacharacters in `s`. */
  function MetaCount(s: string): nat
  {
    if s == [] then 0 else (if s[0] in RegexMeta then 1 else 0) + MetaCount(s[1..])
  }

  function EscapeRegex(s: string): (r: string)
    ensures |r| == |s| + MetaCount(s)
  {
    if s == [] then []
    else (if s[0] in RegexMeta then ['\\', s[0]] else [s[0]]) + EscapeRegex(s[1..])
  }

  /** Reading a pattern text back: `\x` stands for the literal `x`. */
  function Unescape(r: string): string
  {
    if r == [] then []
    else if r[0] == '\\' && |r| >= 2 then [r[1]] + Unescape(r[2..])
    else [r[0]] + Unescape(r[1..])
  }

  /** Escaping loses nothing: the escaped text reads back as the original. */
  lemma {:induction false} UnescapeEscapeRegex(s: string)
    ensures Unescape(EscapeRegex(s)) == s
  {
    if s != [] {
      UnescapeEscapeRegex(s[1..]);
      var head := if s[0] in RegexMeta then ['\\', s[0]] else [s[0]];
      assert EscapeRegex(s) == head + EscapeRegex(s[1..]);
      if s[0] in RegexMeta {
        assert EscapeRegex(s)[2..] == EscapeRegex(s[1..]);
      } else {
        assert EscapeRegex(s)[1..] == EscapeRegex(s[1..]);
      }
    }
  }

  /** Escaping works character by character: escaping a concatenation
      concatenates the escapes. */
  lemma {:induction false} EscapeRegexAppend(a: string, b: string)
    ensures EscapeRegex(a + b) == EscapeRegex(a) + EscapeRegex(b)
  {
    if a == [] {
      assert a + b == b;
    } else {
      var head := if a[0] in RegexMeta then ['\\', a[0]] else [a[0]];
      assert (a + b)[0] == a[0];
      assert (a + b)[1..] == a[1..] + b;
      assert EscapeRegex(a + b) == head + EscapeRegex(a[1..] + b);
      assert EscapeRegex(a) == head + EscapeRegex(a[1..]);
      EscapeRegexAppend(a[1..], b);
    }
  }

  /** One character: a metacharacter gets a backslash before it, any other
      character stays as it is. */
  lemma EscapeRegexChar(c: char)
    ensures c in RegexMeta ==> EscapeRegex([c]) == ['\\', c]
    ensures c !in RegexMeta ==> EscapeRegex([c]) == [c]
  {
    assert [c][1..] == [];
  }

  /** A text without metacharacters is its own escape. */
  lemma {:induction false} EscapeRegexWithoutMeta(s: string)
    requires forall i :: 0 <= i < |s| ==> s[i] !in RegexMeta
    ensures EscapeRegex(s) == s
  {
    if s != [] {
      EscapeRegexWithoutMeta(s[1..]);
    }
  }

  /** So the literal tag in the pattern is exactly what escaping `b2500` gives. */
  lemma FamilyTagNeedsNoEscape()
    ensures EscapeRegex(Identifier.FamilyTag) == Identifier.FamilyTag
  {
    var tag := Identifier.FamilyTag;
    assert tag[0] == 'b' && tag[1] == '2' && tag[2] == '5' && tag[3] == '0' && tag[4] == '0';
    EscapeRegexWithoutMeta(tag);
  }
}
