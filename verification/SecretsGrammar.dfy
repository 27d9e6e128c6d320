/** What the secrets parser accepts, said without the parser: the shape of one entry, in both directions, and
  what lies between entries.
 */
module SecretsGrammar {
  import opened Model
  import opened Secrets

  predicate AllBlank(s: string) {
    forall i :: 0 <= i < |s| ==> s[i] == ' ' || s[i] == '\t'
  }

  predicate AllSpace(s: string) {
    forall i :: 0 <= i < |s| ==> s[i] == ' ' || s[i] == '\t' || s[i] == '\r' || s[i] == '\n'
  }

  /** An environment name: letters, digits and underscores, and no digit first. */
  predicate IsName(name: string) {
    && |name| > 0 && !('0' <= name[0] <= '9')
    && forall i :: 0 <= i < |name| ==>
         'a' <= name[i] <= 'z' || 'A' <= name[i] <= 'Z' || name[i] == '_' || '0' <= name[i] <= '9'
  }

  /** The text is a name, an equals sign, a quoted value and nothing else up to the end of the line or a comment;
    blanks may stand on either side of the equals sign and after the value. */
  predicate IsEntry(raw: string, value: string, rest: string, name: string, b1: string, b2: string, b3: string) {
    && raw == name + (b1 + ("=" + (b2 + ([QUOTE] + (Escaped(value) + [QUOTE] + (b3 + rest))))))
    && IsName(name) && AllBlank(b1) && AllBlank(b2) && AllBlank(b3)
    && (rest == "" || rest[0] == '\n' || rest[0] == '#')
  }

  // ---- skipping ----

  lemma {:induction false} BlanksAreSkipped(b: string, tail: string)
    requires AllBlank(b) && (tail == "" || !IsBlank(tail[0]))
    ensures SkipBlanks(b + tail) == tail
    decreases |b|
  {
    if b == "" {
      assert b + tail == tail;
    } else {
      assert (b + tail)[1..] == b[1..] + tail;
      BlanksAreSkipped(b[1..], tail);
    }
  }

  lemma {:induction false} SkippedBlanks(raw: string) returns (b: string)
    ensures raw == b + SkipBlanks(raw) && AllBlank(b)
    decreases |raw|
  {
    if raw != "" && IsBlank(raw[0]) {
      var rest := SkippedBlanks(raw[1..]);
      b := [raw[0]] + rest;
      assert raw == [raw[0]] + raw[1..];
    } else {
      b := "";
    }
  }

  lemma {:induction false} SpaceIsSkipped(s: string, tail: string)
    requires AllSpace(s)
    ensures SkipSpace(s + tail) == SkipSpace(tail)
    decreases |s|
  {
    if s == "" {
      assert s + tail == tail;
    } else {
      assert (s + tail)[1..] == s[1..] + tail;
      SpaceIsSkipped(s[1..], tail);
    }
  }

  lemma {:induction false} SkippedKey(raw: string) returns (key: string)
    ensures raw == key + SkipKey(raw) && |key| == |raw| - |SkipKey(raw)|
    decreases |raw|
  {
    if raw != "" && !EndsKey(raw[0]) {
      var rest := SkippedKey(raw[1..]);
      key := [raw[0]] + rest;
      assert raw == [raw[0]] + raw[1..];
    } else {
      key := "";
    }
  }

  lemma EscapedFirst(c: char, rest: string)
    ensures Escaped([c] + rest) == (if c == QUOTE then ESCAPE else [c]) + Escaped(rest)
  {
    assert ([c] + rest)[1..] == rest;
  }

  lemma FirstThenRest(raw: string, first: string, tail: string, escaped: string, rest: string)
    requires raw == first + tail && tail == escaped + [QUOTE] + rest
    ensures raw == first + escaped + [QUOTE] + rest
  {
  }

  /** The scanner accepts nothing but escaped values that are closed. */
  lemma {:induction false} ScanInverts(raw: string, decoded: string) returns (value: string)
    requires Scan(raw, decoded).Some?
    ensures var scanned := Scan(raw, decoded).value;
            scanned.value == decoded + value && raw == Escaped(value) + [QUOTE] + scanned.rest
    decreases |raw|
  {
    hide Escaped;
    if raw[0] == QUOTE && !StartsEscape(raw) {
      value := "";
      assert Escaped("") == "" by { EmptyEscaped(); }
      assert raw == [QUOTE] + raw[1..];
    } else {
      var c := raw[0];
      var first := if c == QUOTE then ESCAPE else [c];
      var tail := raw[|first|..];
      assert raw == first + tail;
      var inner := ScanInverts(tail, decoded + [c]);
      value := [c] + inner;
      EscapedFirst(c, inner);
      assert decoded + [c] + inner == decoded + value;
      FirstThenRest(raw, first, tail, Escaped(inner), Scan(tail, decoded + [c]).value.rest);
    }
  }

  lemma EmptyEscaped()
    ensures Escaped("") == ""
  {
  }

  // ---- one entry ----

  lemma NamesAreKeys(name: string)
    ensures ValidKey(name) <==> IsName(name)
  {
  }

  lemma AcceptedIsEntry(raw: string, value: string, rest: string)
    requires ParseEntry(raw) == Some(Entry(value, rest))
    ensures exists name, b1, b2, b3 :: IsEntry(raw, value, rest, name, b1, b2, b3)
  {
    hide Scan, SkipBlanks, SkipKey, ValidKey, Escaped;
    var afterKey := SkipKey(raw);
    var name := SkippedKey(raw);
    assert raw[..|raw| - |afterKey|] == name;
    NamesAreKeys(name);
    var b1 := SkippedBlanks(afterKey);
    var equals := SkipBlanks(afterKey);
    var b2 := SkippedBlanks(equals[1..]);
    var quote := SkipBlanks(equals[1..]);
    var decoded := ScanInverts(quote[1..], "");
    assert "" + decoded == decoded;
    var scanned := Scan(quote[1..], "").value;
    var b3 := SkippedBlanks(scanned.rest);
    assert equals == "=" + equals[1..];
    assert quote == [QUOTE] + quote[1..];
    hide AllBlank;
    assert IsEntry(raw, value, rest, name, b1, b2, b3);
  }

  lemma EntryIsAccepted(raw: string, value: string, rest: string, name: string, b1: string, b2: string, b3: string)
    requires IsEntry(raw, value, rest, name, b1, b2, b3)
    ensures ParseEntry(raw) == Some(Entry(value, rest))
  {
    var scanned := b3 + rest;
    var quoted := Escaped(value) + [QUOTE] + scanned;
    var quote := [QUOTE] + quoted;
    var equals := "=" + (b2 + quote);
    var afterKey := b1 + equals;
    NamesAreKeys(name);
    KeyHasNoEnd(name);
    SkipsKey(name, afterKey);
    assert raw[..|raw| - |afterKey|] == name;
    BlanksAreSkipped(b1, equals);
    assert equals[1..] == b2 + quote;
    BlanksAreSkipped(b2, quote);
    assert quote[1..] == quoted;
    ScanEscaped(value, "", scanned);
    assert "" + value == value;
    BlanksAreSkipped(b3, rest);
    hide Scan, SkipBlanks, SkipKey, ValidKey, Escaped, AllBlank;
  }

  /** The parser accepts an entry exactly when the text has the shape of one, and reads exactly its value. */
  lemma EntryIsExact(raw: string, value: string, rest: string)
    ensures ParseEntry(raw) == Some(Entry(value, rest))
            <==> exists name, b1, b2, b3 :: IsEntry(raw, value, rest, name, b1, b2, b3)
  {
    hide ParseEntry, IsEntry;
    if ParseEntry(raw) == Some(Entry(value, rest)) {
      AcceptedIsEntry(raw, value, rest);
    }
    forall name, b1, b2, b3 | IsEntry(raw, value, rest, name, b1, b2, b3)
      ensures ParseEntry(raw) == Some(Entry(value, rest))
    {
      EntryIsAccepted(raw, value, rest, name, b1, b2, b3);
    }
  }

  // ---- between entries ----

  /** Space before an entry does not matter, a comment lasts to the end of its line, the end of the text ends the
    list, and the first thing that is none of these and no entry rejects the whole file. */
  lemma FileIsEntriesAndComments(space: string, text: string, values: seq<string>)
    requires AllSpace(space)
    ensures Parse(space + text, values) == Parse(text, values)
    ensures text == "" ==> Parse(text, values) == Some(values)
    ensures text != "" && text[0] == '#' ==> Parse(text, values) == Parse(SkipComment(text[1..]), values)
    ensures text != "" && !AllSpace(text[..1]) && text[0] != '#' ==>
              Parse(text, values) == (if ParseEntry(text).None? then None
                                      else Parse(ParseEntry(text).value.rest, values + [ParseEntry(text).value.value]))
  {
    hide ParseEntry;
    SpaceIsSkipped(space, text);
  }

  lemma {:induction false} CommentEndsAtNewline(comment: string, tail: string)
    requires '\n' !in comment && (tail == "" || tail[0] == '\n')
    ensures SkipComment(comment + tail) == tail
    decreases |comment|
  {
    if comment == "" {
      assert comment + tail == tail;
    } else {
      assert (comment + tail)[1..] == comment[1..] + tail;
      CommentEndsAtNewline(comment[1..], tail);
    }
  }

  /** Printed by hand: a quote is closed, escaped and opened again. */
  lemma PrintedByHand()
    ensures Line("A", "it's") == "A='it'\\''s'\n"
    ensures Header() == "# coordplane-managed run secrets\n"
  {
    assert Escaped("it's") == "it'\\''s" by {
      assert Escaped("s") == "s" by { assert "s"[1..] == ""; }
      assert "'s"[1..] == "s";
      assert Escaped("'s") == "'\\''" + "s";
      assert "t's"[1..] == "'s";
      assert Escaped("t's") == "t" + ("'\\''" + "s");
      assert "it's"[1..] == "t's";
    }
  }
}
