/** Printing and parsing the secrets file of a run (internal/daemon/runtime_redaction.go).

  A file is a string of bytes; one character stands for one byte.
 */
module Secrets {
  import opened Model

  const QUOTE: char := '\''
  const NUL: char := 0 as char
  const ESCAPE: string := "'\\''"

  /** The text of the header line. */
  function Comment(): string {
    " coordplane-managed run secrets"
  }

  function Header(): string {
    "#" + Comment() + "\n"
  }

  // ---- the file format ----

  predicate KeyStart(c: char) {
    'A' <= c <= 'Z' || 'a' <= c <= 'z' || c == '_'
  }

  /** validRunSecretKey */
  predicate ValidKey(key: string) {
    && key != "" && KeyStart(key[0])
    && forall i :: 0 <= i < |key| ==> KeyStart(key[i]) || '0' <= key[i] <= '9'
  }

  predicate ValidValue(value: string) {
    NUL !in value
  }

  /** strings.ReplaceAll(value, "'", escape) */
  function Escaped(value: string): string {
    if value == "" then ""
    else (if value[0] == QUOTE then ESCAPE else [value[0]]) + Escaped(value[1..])
  }

  function Line(name: string, value: string): string {
    name + "=" + [QUOTE] + Escaped(value) + [QUOTE] + "\n"
  }

  function Lines(names: seq<string>, secrets: map<string, string>): string
    requires forall name :: name in names ==> name in secrets
  {
    if names == [] then "" else Line(names[0], secrets[names[0]]) + Lines(names[1..], secrets)
  }

  function ValuesOf(names: seq<string>, secrets: map<string, string>): (values: seq<string>)
    requires forall name :: name in names ==> name in secrets
    ensures |values| == |names| && forall i :: 0 <= i < |names| ==> values[i] == secrets[names[i]]
  {
    if names == [] then [] else [secrets[names[0]]] + ValuesOf(names[1..], secrets)
  }

  // ---- the grammar of the parser ----

  datatype Scanned = Scanned(value: string, rest: string)

  predicate StartsEscape(raw: string) {
    |raw| >= 4 && raw[0] == QUOTE && raw[1] == '\\' && raw[2] == QUOTE && raw[3] == QUOTE
  }

  /** What must not follow a closing quote. */
  predicate ContinuesEscape(raw: string) {
    |raw| >= 3 && raw[0] == '\\' && raw[1] == QUOTE && raw[2] == QUOTE
  }

  /** The rest of a single-quoted string, after its opening quote. */
  function Scan(raw: string, decoded: string): Option<Scanned> {
    if raw == "" then None
    else if StartsEscape(raw) then Scan(raw[|ESCAPE|..], decoded + [QUOTE])
    else if raw[0] == QUOTE then Some(Scanned(decoded, raw[1..]))
    else Scan(raw[1..], decoded + [raw[0]])
  }

  predicate IsBlank(c: char) {
    c == ' ' || c == '\t'
  }

  predicate IsSpace(c: char) {
    IsBlank(c) || c == '\r' || c == '\n'
  }

  function SkipBlanks(raw: string): (rest: string)
    ensures |rest| <= |raw|
  {
    if raw != "" && IsBlank(raw[0]) then SkipBlanks(raw[1..]) else raw
  }

  function SkipSpace(raw: string): (rest: string)
    ensures |rest| <= |raw|
  {
    if raw != "" && IsSpace(raw[0]) then SkipSpace(raw[1..]) else raw
  }

  function SkipComment(raw: string): (rest: string)
    ensures |rest| <= |raw|
  {
    if raw != "" && raw[0] != '\n' then SkipComment(raw[1..]) else raw
  }

  predicate EndsKey(c: char) {
    c == '=' || IsSpace(c)
  }

  function SkipKey(raw: string): (rest: string)
    ensures |rest| <= |raw|
  {
    if raw != "" && !EndsKey(raw[0]) then SkipKey(raw[1..]) else raw
  }

  datatype Entry = Entry(value: string, rest: string)

  lemma {:induction false} ScanShrinks(raw: string, decoded: string)
    requires Scan(raw, decoded).Some?
    ensures |Scan(raw, decoded).value.rest| < |raw|
    decreases |raw|
  {
    if StartsEscape(raw) {
      ScanShrinks(raw[|ESCAPE|..], decoded + [QUOTE]);
    } else if raw[0] != QUOTE {
      ScanShrinks(raw[1..], decoded + [raw[0]]);
    }
  }

  /** One NAME='value' entry; `raw` begins with its name. */
  function ParseEntry(raw: string): (entry: Option<Entry>)
    ensures entry.Some? ==> |entry.value.rest| < |raw|
  {
    var afterKey := SkipKey(raw);
    var key := raw[..|raw| - |afterKey|];
    var equals := SkipBlanks(afterKey);
    if equals == "" || equals[0] != '=' then None
    else
      var quote := SkipBlanks(equals[1..]);
      if quote == "" || quote[0] != QUOTE then None
      else if Scan(quote[1..], "").None? then None
      else
        ScanShrinks(quote[1..], "");
        var scanned := Scan(quote[1..], "").value;
        var rest := SkipBlanks(scanned.rest);
        if rest != "" && rest[0] != '\n' && rest[0] != '#' then None
        else if !ValidKey(key) then None
        else Some(Entry(scanned.value, rest))
  }

  /** parseRunSecretsFile */
  function Parse(raw: string, values: seq<string>): Option<seq<string>>
    decreases |raw|
  {
    var entry := SkipSpace(raw);
    if entry == "" then Some(values)
    else if entry[0] == '#' then Parse(SkipComment(entry[1..]), values)
    else
      var parsed := ParseEntry(entry);
      if parsed.None? then None else Parse(parsed.value.rest, values + [parsed.value.value])
  }

  // ---- round trip ----

  lemma ScanCloses(decoded: string, tail: string)
    requires !ContinuesEscape(tail)
    ensures Scan([QUOTE] + tail, decoded) == Some(Scanned(decoded, tail))
  {
    var raw := [QUOTE] + tail;
    assert forall i :: 1 <= i < |raw| ==> raw[i] == tail[i - 1];
    assert raw[1..] == tail;
  }

  lemma ScanTakes(c: char, decoded: string, rest: string)
    ensures Scan((if c == QUOTE then ESCAPE else [c]) + rest, decoded) == Scan(rest, decoded + [c])
  {
    if c == QUOTE {
      assert (ESCAPE + rest)[|ESCAPE|..] == rest;
    } else {
      assert ([c] + rest)[1..] == rest;
    }
  }

  /** Whatever bytes a value holds, scanning its escaped form yields it again: quotes, backslashes
    and newlines included. What follows the closing quote must not look like an escape. */
  lemma {:induction false} ScanEscaped(value: string, decoded: string, tail: string)
    requires !ContinuesEscape(tail)
    ensures Scan(Escaped(value) + [QUOTE] + tail, decoded) == Some(Scanned(decoded + value, tail))
    decreases |value|
  {
    hide Scan, ContinuesEscape;
    var raw := Escaped(value) + [QUOTE] + tail;
    if value == "" {
      assert raw == [QUOTE] + tail;
      ScanCloses(decoded, tail);
      assert decoded + value == decoded;
    } else {
      var rest := Escaped(value[1..]) + [QUOTE] + tail;
      assert raw == (if value[0] == QUOTE then ESCAPE else [value[0]]) + rest;
      ScanTakes(value[0], decoded, rest);
      ScanEscaped(value[1..], decoded + [value[0]], tail);
      assert decoded + [value[0]] + value[1..] == decoded + value;
    }
  }

  lemma {:induction false} SkipsKey(key: string, tail: string)
    requires forall i :: 0 <= i < |key| ==> !EndsKey(key[i])
    requires tail != "" && EndsKey(tail[0])
    ensures SkipKey(key + tail) == tail
    decreases |key|
  {
    if key == "" {
      assert key + tail == tail;
    } else {
      assert (key + tail)[1..] == key[1..] + tail;
      SkipsKey(key[1..], tail);
    }
  }

  /** A name, an equals sign and a quoted value are one entry, up to the end of the line. */
  lemma EntryParses(name: string, quoted: string, value: string, tail: string)
    requires ValidKey(name) && Scan(quoted, "") == Some(Scanned(value, "\n" + tail))
    ensures ParseEntry(name + ("=" + ([QUOTE] + quoted))) == Some(Entry(value, "\n" + tail))
  {
    hide Scan, ValidKey;
    var assignment := "=" + ([QUOTE] + quoted);
    var raw := name + assignment;
    KeyHasNoEnd(name);
    SkipsKey(name, assignment);
    assert raw[..|raw| - |assignment|] == name;
    assert SkipBlanks(assignment) == assignment;
    assert assignment[1..] == [QUOTE] + quoted;
    assert SkipBlanks([QUOTE] + quoted) == [QUOTE] + quoted;
    assert ([QUOTE] + quoted)[1..] == quoted;
    assert SkipBlanks("\n" + tail) == "\n" + tail;
    hide SkipBlanks, SkipKey;
  }

  lemma KeyHasNoEnd(name: string)
    requires ValidKey(name)
    ensures forall i :: 0 <= i < |name| ==> !EndsKey(name[i])
  {
  }

  /** A printed line is one entry of its value, and leaves the newline. */
  lemma LineParses(name: string, value: string, tail: string)
    requires ValidKey(name)
    ensures ParseEntry(Line(name, value) + tail) == Some(Entry(value, "\n" + tail))
  {
    hide Scan, ValidKey, ParseEntry, Escaped;
    var quoted := Escaped(value) + [QUOTE] + ("\n" + tail);
    ScanEscaped(value, "", "\n" + tail);
    assert "" + value == value;
    EntryParses(name, quoted, value, tail);
    assert Line(name, value) + tail == name + ("=" + ([QUOTE] + quoted));
  }

  lemma {:induction false} LinesParse(names: seq<string>, secrets: map<string, string>, values: seq<string>)
    requires forall name :: name in names ==> name in secrets && ValidKey(name)
    ensures Parse("\n" + Lines(names, secrets), values) == Some(values + ValuesOf(names, secrets))
    decreases |names|
  {
    var raw := "\n" + Lines(names, secrets);
    assert raw[1..] == Lines(names, secrets);
    if names == [] {
      assert values + ValuesOf(names, secrets) == values;
    } else {
      var value := secrets[names[0]];
      var rest := Lines(names[1..], secrets);
      assert Lines(names, secrets) == Line(names[0], value) + rest;
      assert Lines(names, secrets)[0] == names[0][0];
      assert SkipSpace(raw) == Line(names[0], value) + rest;
      LineParses(names[0], value, rest);
      LinesParse(names[1..], secrets, values + [value]);
      assert values + [value] + ValuesOf(names[1..], secrets) == values + ValuesOf(names, secrets);
    }
  }

  lemma {:induction false} CommentSkipped(comment: string, tail: string)
    requires '\n' !in comment && tail != "" && tail[0] == '\n'
    ensures SkipComment(comment + tail) == tail
    decreases |comment|
  {
    if comment == "" {
      assert comment + tail == tail;
    } else {
      assert (comment + tail)[1..] == comment[1..] + tail;
      CommentSkipped(comment[1..], tail);
    }
  }

  lemma CommentIsOneLine()
    ensures '\n' !in Comment()
  {
  }

  /** Parsing a printed file yields exactly the values, in the order of the names. */
  lemma FileParses(names: seq<string>, secrets: map<string, string>)
    requires forall name :: name in names ==> name in secrets && ValidKey(name)
    ensures Parse(Header() + Lines(names, secrets), []) == Some(ValuesOf(names, secrets))
  {
    CommentIsOneLine();
    hide Comment, Lines, ParseEntry, ValidKey;
    var body := "\n" + Lines(names, secrets);
    var raw := Header() + Lines(names, secrets);
    assert raw == "#" + (Comment() + body);
    assert raw[1..] == Comment() + body;
    assert SkipSpace(raw) == raw;
    CommentSkipped(Comment(), body);
    LinesParse(names, secrets, []);
    hide SkipSpace, SkipComment;
    assert [] + ValuesOf(names, secrets) == ValuesOf(names, secrets);
  }

  // ---- the parser as it runs ----

  /** scanShellSingleQuoted */
  method ScanShellSingleQuoted(raw: string) returns (value: string, rest: string, ok: bool)
    ensures raw == "" || raw[0] != QUOTE ==> !ok
    ensures raw != "" && raw[0] == QUOTE ==>
              (ok <==> Scan(raw[1..], "").Some?) && (ok ==> Scan(raw[1..], "") == Some(Scanned(value, rest)))
  {
    if raw == "" || raw[0] != QUOTE {
      return "", raw, false;
    }
    var builder := "";
    var pos := 1;
    while pos < |raw|
      invariant 1 <= pos <= |raw|
      invariant Scan(raw[pos..], builder) == Scan(raw[1..], "")
    {
      if StartsEscape(raw[pos..]) {
        assert raw[pos..][|ESCAPE|..] == raw[pos + |ESCAPE|..];
        builder := builder + [QUOTE];
        pos := pos + |ESCAPE|;
      } else if raw[pos] == QUOTE {
        assert raw[pos..][1..] == raw[pos + 1..];
        return builder, raw[pos + 1..], true;
      } else {
        assert raw[pos..][1..] == raw[pos + 1..];
        builder := builder + [raw[pos]];
        pos := pos + 1;
      }
    }
    return "", raw, false;
  }

  /** The index of the first byte at or after `pos` that is not a blank. */
  method AfterBlanks(raw: string, pos: nat) returns (next: nat)
    requires pos <= |raw|
    ensures pos <= next <= |raw| && raw[next..] == SkipBlanks(raw[pos..])
  {
    next := pos;
    while next < |raw| && IsBlank(raw[next])
      invariant pos <= next <= |raw| && SkipBlanks(raw[next..]) == SkipBlanks(raw[pos..])
    {
      assert raw[next..][1..] == raw[next + 1..];
      next := next + 1;
    }
  }

  method AfterSpace(raw: string, pos: nat) returns (next: nat)
    requires pos <= |raw|
    ensures pos <= next <= |raw| && raw[next..] == SkipSpace(raw[pos..])
  {
    next := pos;
    while next < |raw| && IsSpace(raw[next])
      invariant pos <= next <= |raw| && SkipSpace(raw[next..]) == SkipSpace(raw[pos..])
    {
      assert raw[next..][1..] == raw[next + 1..];
      next := next + 1;
    }
  }

  method AfterComment(raw: string, pos: nat) returns (next: nat)
    requires pos <= |raw|
    ensures pos <= next <= |raw| && raw[next..] == SkipComment(raw[pos..])
  {
    next := pos;
    while next < |raw| && raw[next] != '\n'
      invariant pos <= next <= |raw| && SkipComment(raw[next..]) == SkipComment(raw[pos..])
    {
      assert raw[next..][1..] == raw[next + 1..];
      next := next + 1;
    }
  }

  method AfterKey(raw: string, pos: nat) returns (next: nat)
    requires pos <= |raw|
    ensures pos <= next <= |raw| && raw[next..] == SkipKey(raw[pos..])
  {
    next := pos;
    while next < |raw| && !EndsKey(raw[next])
      invariant pos <= next <= |raw| && SkipKey(raw[next..]) == SkipKey(raw[pos..])
    {
      assert raw[next..][1..] == raw[next + 1..];
      next := next + 1;
    }
  }

  /** parseRunSecretsFile, one entry of its loop. */
  method ParseEntryAt(raw: string, start: nat) returns (value: string, next: nat, ok: bool)
    requires start <= |raw|
    ensures ok <==> ParseEntry(raw[start..]).Some?
    ensures ok ==> start <= next <= |raw| && ParseEntry(raw[start..]) == Some(Entry(value, raw[next..]))
  {
    hide Scan, SkipKey, SkipBlanks, ValidKey;
    value, next, ok := "", start, false;
    var pos := AfterKey(raw, start);
    var key := raw[start..pos];
    assert raw[start..][..|raw[start..]| - |raw[pos..]|] == key;
    pos := AfterBlanks(raw, pos);
    if pos >= |raw| || raw[pos] != '=' {
      return;
    }
    assert raw[pos..][1..] == raw[pos + 1..];
    pos := AfterBlanks(raw, pos + 1);
    if pos >= |raw| || raw[pos] != QUOTE {
      return;
    }
    assert raw[pos..][1..] == raw[pos + 1..];
    var scanned, remainder, found := ScanShellSingleQuoted(raw[pos..]);
    if !found {
      return;
    }
    ScanIsSuffix(raw[pos + 1..], "");
    pos := |raw| - |remainder|;
    assert raw[pos..] == remainder;
    pos := AfterBlanks(raw, pos);
    if pos < |raw| && raw[pos] != '\n' && raw[pos] != '#' {
      return;
    }
    if !ValidKey(key) {
      return;
    }
    value, next, ok := scanned, pos, true;
  }

  lemma {:induction false} ScanIsSuffix(raw: string, decoded: string)
    requires Scan(raw, decoded).Some?
    ensures var rest := Scan(raw, decoded).value.rest; |rest| <= |raw| && raw[|raw| - |rest|..] == rest
    decreases |raw|
  {
    if StartsEscape(raw) {
      ScanIsSuffix(raw[|ESCAPE|..], decoded + [QUOTE]);
    } else if raw[0] != QUOTE {
      ScanIsSuffix(raw[1..], decoded + [raw[0]]);
    }
  }

  /** parseRunSecretsFile */
  method ParseRunSecretsFile(raw: string) returns (values: seq<string>, ok: bool)
    ensures ok <==> Parse(raw, []).Some?
    ensures ok ==> Parse(raw, []) == Some(values)
  {
    hide ParseEntry, SkipSpace, SkipComment;
    values, ok := [], true;
    var pos := 0;
    assert raw[0..] == raw;
    while pos < |raw|
      invariant ok && 0 <= pos <= |raw|
      invariant Parse(raw[pos..], values) == Parse(raw, [])
      decreases |raw| - pos
    {
      ghost var entered := pos;
      pos := AfterSpace(raw, pos);
      if pos >= |raw| {
        break;
      }
      assert raw[pos..][0] == raw[pos] && raw[pos..][1..] == raw[pos + 1..];
      if raw[pos] == '#' {
        pos := AfterComment(raw, pos + 1);
      } else {
        var value, next, found := ParseEntryAt(raw, pos);
        if !found {
          return [], false;
        }
        values := values + [value];
        pos := next;
      }
    }
  }

  // ---- the printer as it runs ----

  /** The byte order of strings. */
  predicate Less(a: string, b: string) {
    b != "" && (a == "" || a[0] < b[0] || (a[0] == b[0] && Less(a[1..], b[1..])))
  }

  lemma {:induction false} LessIsTotal(a: string, b: string)
    ensures Less(a, b) || a == b || Less(b, a)
    decreases |a|
  {
    if a != "" && b != "" && a[0] == b[0] {
      LessIsTotal(a[1..], b[1..]);
      assert a == [a[0]] + a[1..] && b == [b[0]] + b[1..];
    }
  }

  lemma {:induction false} LessIsTransitive(a: string, b: string, c: string)
    requires Less(a, b) && Less(b, c)
    ensures Less(a, c)
    decreases |a|
  {
    if a != "" && a[0] == b[0] && b[0] == c[0] {
      LessIsTransitive(a[1..], b[1..], c[1..]);
    }
  }

  lemma {:induction false} LessIsIrreflexive(a: string)
    ensures !Less(a, a)
    decreases |a|
  {
    if a != "" {
      LessIsIrreflexive(a[1..]);
    }
  }

  ghost predicate Sorted(names: seq<string>) {
    forall i, j :: 0 <= i < j < |names| ==> Less(names[i], names[j])
  }

  /** The names in sorted order. */
  ghost predicate SortedNames(names: seq<string>, secrets: map<string, string>) {
    Sorted(names) && forall name :: name in names <==> name in secrets
  }

  lemma HeadIsLeast(a: seq<string>, b: seq<string>)
    requires Sorted(a) && Sorted(b) && a != [] && b != [] && a[0] in b && b[0] in a
    ensures a[0] == b[0]
  {
    var i :| 0 <= i < |b| && b[i] == a[0];
    var j :| 0 <= j < |a| && a[j] == b[0];
    if i > 0 && j > 0 {
      LessIsTransitive(a[0], b[0], a[0]);
      LessIsIrreflexive(a[0]);
    }
  }

  lemma TailWithoutHead(a: seq<string>, name: string)
    requires Sorted(a) && a != []
    ensures name in a[1..] <==> name in a && name != a[0]
  {
    LessIsIrreflexive(a[0]);
  }

  /** The order is unique, so the printed file is a function of the secrets alone. */
  lemma {:induction false} SortedNamesAreUnique(a: seq<string>, b: seq<string>)
    requires Sorted(a) && Sorted(b) && forall name :: name in a <==> name in b
    ensures a == b
    decreases |a|
  {
    if a != [] {
      assert a[0] in b;
    }
    if b != [] {
      assert b[0] in a;
    }
    if a != [] {
      HeadIsLeast(a, b);
      forall name
        ensures name in a[1..] <==> name in b[1..]
      {
        TailWithoutHead(a, name);
        TailWithoutHead(b, name);
      }
      SortedNamesAreUnique(a[1..], b[1..]);
      assert a == [a[0]] + a[1..] && b == [b[0]] + b[1..];
    }
  }

  /** One insertion of sort.Strings, into names that are sorted already. */
  method InsertName(names: seq<string>, name: string) returns (sorted: seq<string>)
    requires Sorted(names) && name !in names
    ensures Sorted(sorted) && forall n :: n in sorted <==> n in names || n == name
  {
    var i := 0;
    while i < |names| && Less(names[i], name)
      invariant 0 <= i <= |names| && forall k :: 0 <= k < i ==> Less(names[k], name)
    {
      i := i + 1;
    }
    sorted := names[..i] + [name] + names[i..];
    if i < |names| {
      LessIsTotal(names[i], name);
      forall k | i <= k < |names|
        ensures Less(name, names[k])
      {
        if k > i {
          LessIsTransitive(name, names[i], names[k]);
        }
      }
    }
    assert names == names[..i] + names[i..];
  }

  /** sort.Strings of the names, taken from the map in any order. */
  method SortNames(keys: set<string>) returns (sorted: seq<string>)
    ensures Sorted(sorted) && forall name :: name in sorted <==> name in keys
  {
    hide Less;
    sorted := [];
    var rest := keys;
    while rest != {}
      invariant rest <= keys && Sorted(sorted)
      invariant forall n :: n in sorted <==> n in keys && n !in rest
    {
      var name :| name in rest;
      sorted := InsertName(sorted, name);
      rest := rest - {name};
    }
  }

  /** serializeRunSecretsFile */
  method SerializeRunSecretsFile(secrets: map<string, string>) returns (file: string, ok: bool, ghost names: seq<string>)
    ensures SortedNames(names, secrets)
    ensures ok <==> forall name :: name in secrets ==> ValidKey(name) && ValidValue(secrets[name])
    ensures ok ==> file == Header() + Lines(names, secrets)
  {
    hide ValidKey, Sorted, Header, ValidValue, Line, Escaped;
    var sorted := SortNames(secrets.Keys);
    names := sorted;
    file, ok := Header(), true;
    assert file + Lines(sorted, secrets) == Header() + Lines(sorted, secrets);
    for i := 0 to |sorted|
      invariant forall n :: n in sorted[..i] ==> ValidKey(n) && ValidValue(secrets[n])
      invariant file + Lines(sorted[i..], secrets) == Header() + Lines(sorted, secrets)
    {
      var name := sorted[i];
      if !ValidKey(name) || NUL in secrets[name] {
        NulIsInvalid(secrets[name]);
        return "", false, names;
      }
      NulIsInvalid(secrets[name]);
      assert sorted[i..][0] == name && sorted[i..][1..] == sorted[i + 1..];
      ghost var printed := file;
      file := WriteLine(file, name, secrets[name]);
      assert printed + (Line(name, secrets[name]) + Lines(sorted[i + 1..], secrets)) == file + Lines(sorted[i + 1..], secrets);
      assert sorted[..i + 1] == sorted[..i] + [name];
    }
    assert sorted[|sorted|..] == [] && file + "" == file;
    assert sorted[..|sorted|] == sorted;
  }

  method WriteLine(printed: string, name: string, value: string) returns (file: string)
    ensures file == printed + Line(name, value)
  {
    file := printed + name;
    file := file + "=" + [QUOTE];
    file := file + Escaped(value);
    file := file + [QUOTE] + "\n";
  }

  lemma NulIsInvalid(value: string)
    ensures ValidValue(value) <==> NUL !in value
  {
  }

  /** Printed and parsed again: every valid set of secrets comes back as its values in the order of
    the names. */
  method PrintAndParse(secrets: map<string, string>) returns (values: seq<string>, ok: bool, ghost names: seq<string>)
    requires forall name :: name in secrets ==> ValidKey(name) && ValidValue(secrets[name])
    ensures ok && SortedNames(names, secrets) && values == ValuesOf(names, secrets)
  {
    hide Header, Lines, Parse, ValidKey, ValidValue;
    var file, printed;
    file, printed, names := SerializeRunSecretsFile(secrets);
    FileParses(names, secrets);
    values, ok := ParseRunSecretsFile(file);
  }
}
