/**
 * The java.lang.String operations the search engine relies on:
 * `split` with a one-character separator, `split("\\s+")` and `toLowerCase`.
 */
module JavaStrings {

  /** Every field of `s` between occurrences of `sep`, empty fields included. */
  function Fields(s: string, sep: char): (parts: seq<string>)
    ensures |parts| >= 1
    decreases |s|
  {
    if s == [] then [""]
    else
      var rest := Fields(s[1..], sep);
      if s[0] == sep then [""] + rest
      else [[s[0]] + rest[0]] + rest[1..]
  }

  /** No field holds the separator, and when there are several, each is shorter than the string. */
  lemma {:induction false} FieldsParts(s: string, sep: char)
    ensures forall p :: p in Fields(s, sep) ==> sep !in p && |p| <= |s|
    ensures |Fields(s, sep)| >= 2 ==> forall p :: p in Fields(s, sep) ==> |p| < |s|
    decreases |s|
  {
    if s != [] {
      var rest := Fields(s[1..], sep);
      FieldsParts(s[1..], sep);
      if s[0] != sep {
        assert sep !in [s[0]] + rest[0] by {
          assert forall c :: c in [s[0]] + rest[0] ==> c == s[0] || c in rest[0];
        }
        assert forall p :: p in Fields(s, sep) ==> p == [s[0]] + rest[0] || p in rest[1..];
        assert forall p :: p in rest[1..] ==> p in rest;
      }
    }
  }

  /** The fields glued back together with `sep` between them. */
  function Join(parts: seq<string>, sep: char): string
    decreases |parts|
  {
    if |parts| == 0 then ""
    else if |parts| == 1 then parts[0]
    else parts[0] + [sep] + Join(parts[1..], sep)
  }

  /** Gluing a first field onto the rest. */
  lemma JoinCons(p: string, rest: seq<string>, sep: char)
    requires |rest| >= 1
    ensures Join([p] + rest, sep) == p + [sep] + Join(rest, sep)
  {
    assert ([p] + rest)[1..] == rest;
  }

  /** Cutting a string at its separators and gluing the fields back gives the string. */
  lemma {:induction false} JoinFields(s: string, sep: char)
    ensures Join(Fields(s, sep), sep) == s
    decreases |s|
  {
    if s != [] {
      var rest := Fields(s[1..], sep);
      JoinFields(s[1..], sep);
      assert s == [s[0]] + s[1..];
      if s[0] == sep {
        JoinCons("", rest, sep);
      } else if |rest| == 1 {
        assert Fields(s, sep) == [[s[0]] + rest[0]];
      } else {
        JoinCons(rest[0], rest[1..], sep);
        assert [rest[0]] + rest[1..] == rest;
        JoinCons([s[0]] + rest[0], rest[1..], sep);
      }
    }
  }

  /** One step of `Fields` on a string written as a first character and the rest. */
  lemma FieldsCons(c: char, t: string, sep: char)
    ensures c == sep ==> Fields([c] + t, sep) == [""] + Fields(t, sep)
    ensures c != sep ==> Fields([c] + t, sep) == [[c] + Fields(t, sep)[0]] + Fields(t, sep)[1..]
  {
    assert ([c] + t)[1..] == t;
  }

  /** Regrouping a field, a separator and the rest around the field's first character. */
  lemma SeqAssoc(p: string, sep: char, t: string)
    requires p != []
    ensures p + [sep] + t == [p[0]] + (p[1..] + [sep] + t)
  {
    assert p == [p[0]] + p[1..];
  }

  /** A character other than the separator extends the first field. */
  lemma FieldsConsStep(c: char, t: string, q: string, tail: seq<string>, sep: char)
    requires c != sep
    requires Fields(t, sep) == [q] + tail
    ensures Fields([c] + t, sep) == [[c] + q] + tail
  {
    FieldsCons(c, t, sep);
    assert Fields(t, sep)[0] == q && Fields(t, sep)[1..] == tail;
  }

  /** Cutting a glued list of separator-free fields gives the list back. */
  lemma {:induction false} FieldsJoin(parts: seq<string>, sep: char)
    requires |parts| >= 1
    requires forall p :: p in parts ==> sep !in p
    ensures Fields(Join(parts, sep), sep) == parts
    decreases |parts|, |parts[0]|
  {
    var p0, tail := parts[0], parts[1..];
    assert parts == [p0] + tail;
    if |parts| == 1 {
      FieldsOfSeparatorFree(p0, sep);
    } else if p0 == "" {
      FieldsJoin(tail, sep);
      JoinCons(p0, tail, sep);
      FieldsCons(sep, Join(tail, sep), sep);
    } else {
      var shorter := [p0[1..]] + tail;
      assert sep !in p0[1..] by {
        assert forall c :: c in p0[1..] ==> c in p0;
      }
      assert forall p :: p in tail ==> p in parts;
      assert forall p :: p in shorter ==> p == p0[1..] || p in tail;
      assert shorter[0] == p0[1..] && shorter[1..] == tail;
      FieldsJoin(shorter, sep);
      var jt := Join(tail, sep);
      JoinCons(p0, tail, sep);
      JoinCons(p0[1..], tail, sep);
      SeqAssoc(p0, sep, jt);
      assert Join(parts, sep) == [p0[0]] + Join(shorter, sep);
      assert p0[0] in p0;
      FieldsConsStep(p0[0], Join(shorter, sep), p0[1..], tail, sep);
      assert [p0[0]] + p0[1..] == p0;
    }
  }

  /** A string without the separator is a single field. */
  lemma {:induction false} FieldsOfSeparatorFree(s: string, sep: char)
    requires sep !in s
    ensures Fields(s, sep) == [s]
    decreases |s|
  {
    if s != [] {
      assert sep !in s[1..] by {
        assert forall c :: c in s[1..] ==> c in s;
      }
      FieldsOfSeparatorFree(s[1..], sep);
      assert [s[0]] + s[1..] == s;
    }
  }

  /** `parts` without its trailing empty strings, as `String.split` returns them. */
  function DropTrailingEmpty(parts: seq<string>): (r: seq<string>)
    ensures r == [] || r[|r| - 1] != ""
    decreases |parts|
  {
    if parts == [] then []
    else if parts[|parts| - 1] == "" then DropTrailingEmpty(parts[..|parts| - 1])
    else parts
  }

  /** What is dropped is a run of empty strings at the end: the result is a prefix. */
  lemma {:induction false} DropTrailingEmptyPrefix(parts: seq<string>)
    ensures |DropTrailingEmpty(parts)| <= |parts|
    ensures DropTrailingEmpty(parts) == parts[..|DropTrailingEmpty(parts)|]
    ensures forall i :: |DropTrailingEmpty(parts)| <= i < |parts| ==> parts[i] == ""
    decreases |parts|
  {
    if parts != [] && parts[|parts| - 1] == "" {
      var init := parts[..|parts| - 1];
      DropTrailingEmptyPrefix(init);
      assert init[..|DropTrailingEmpty(init)|] == parts[..|DropTrailingEmpty(init)|];
    }
  }

  /**
   * `s.split(sep)` for a one-character separator: the whole string when the
   * separator does not occur, else the fields without the trailing empty ones.
   */
  function Split(s: string, sep: char): (parts: seq<string>)
    ensures sep !in s ==> parts == [s]
    ensures sep in s ==> parts == [] || parts[|parts| - 1] != ""
  {
    if sep !in s then [s] else DropTrailingEmpty(Fields(s, sep))
  }

  /** Splitting separator-free pieces glued with `sep`, the last one non-empty, gives the pieces back. */
  lemma SplitJoin(parts: seq<string>, sep: char)
    requires |parts| >= 2 && parts[|parts| - 1] != ""
    requires forall p :: p in parts ==> sep !in p
    ensures Split(Join(parts, sep), sep) == parts
  {
    FieldsJoin(parts, sep);
    JoinCons(parts[0], parts[1..], sep);
    assert [parts[0]] + parts[1..] == parts;
    assert sep in Join(parts, sep) by {
      assert Join(parts, sep)[|parts[0]|] == sep;
    }
  }

  /** No piece holds the separator, and when there are several, each is shorter than the string. */
  lemma SplitParts(s: string, sep: char)
    ensures forall p :: p in Split(s, sep) ==> sep !in p
    ensures |Split(s, sep)| >= 2 ==> forall p :: p in Split(s, sep) ==> |p| < |s|
  {
    if sep in s {
      var all := Fields(s, sep);
      FieldsParts(s, sep);
      DropTrailingEmptyPrefix(all);
      assert forall p :: p in Split(s, sep) ==> p in all;
    }
  }

  /** Splitting, then gluing the pieces, gives the string back up to dropped trailing separators. */
  lemma SplitIsPrefixOfFields(s: string, sep: char)
    requires sep in s
    ensures |Split(s, sep)| <= |Fields(s, sep)|
    ensures Split(s, sep) == Fields(s, sep)[..|Split(s, sep)|]
    ensures forall i :: |Split(s, sep)| <= i < |Fields(s, sep)| ==> Fields(s, sep)[i] == ""
  {
    DropTrailingEmptyPrefix(Fields(s, sep));
  }

  /** Some character other than `sep` comes after an occurrence of `sep`. */
  predicate SepThenOther(s: string, sep: char) {
    exists i, j | 0 <= i < j < |s| :: s[i] == sep && s[j] != sep
  }

  /** Some field of `s` is non-empty exactly when `s` holds a character other than `sep`. */
  lemma {:induction false} FieldsSomeNonEmpty(s: string, sep: char)
    ensures (exists k | 0 <= k < |Fields(s, sep)| :: Fields(s, sep)[k] != "") <==> (exists j | 0 <= j < |s| :: s[j] != sep)
    decreases |s|
  {
    if s != [] {
      var rest := Fields(s[1..], sep);
      FieldsSomeNonEmpty(s[1..], sep);
      if s[0] == sep {
        assert Fields(s, sep) == [""] + rest;
        if exists j | 0 <= j < |s| :: s[j] != sep {
          var j :| 0 <= j < |s| && s[j] != sep;
          assert s[1..][j - 1] != sep;
          var k :| 0 <= k < |rest| && rest[k] != "";
          assert Fields(s, sep)[k + 1] != "";
        }
        if exists k | 0 <= k < |Fields(s, sep)| :: Fields(s, sep)[k] != "" {
          var k :| 0 <= k < |Fields(s, sep)| && Fields(s, sep)[k] != "";
          assert rest[k - 1] != "";
          var j :| 0 <= j < |s[1..]| && s[1..][j] != sep;
          assert s[j + 1] != sep;
        }
      } else {
        assert Fields(s, sep)[0] != "";
      }
    }
  }

  /** Past the first field, some field of `s` is non-empty exactly when a non-`sep` character follows a `sep`. */
  lemma {:induction false} FieldsLaterNonEmpty(s: string, sep: char)
    ensures (exists k | 1 <= k < |Fields(s, sep)| :: Fields(s, sep)[k] != "") <==> SepThenOther(s, sep)
    decreases |s|
  {
    if s != [] {
      if s[0] == sep {
        LaterNonEmptyAfterSep(s, sep);
      } else {
        FieldsLaterNonEmpty(s[1..], sep);
        LaterNonEmptyAfterOther(s, sep);
      }
    }
  }

  /** The step of `FieldsLaterNonEmpty` for a string starting with the separator. */
  lemma LaterNonEmptyAfterSep(s: string, sep: char)
    requires s != [] && s[0] == sep
    ensures (exists k | 1 <= k < |Fields(s, sep)| :: Fields(s, sep)[k] != "") <==> SepThenOther(s, sep)
  {
    var rest := Fields(s[1..], sep);
    FieldsSomeNonEmpty(s[1..], sep);
    assert Fields(s, sep) == [""] + rest;
    if SepThenOther(s, sep) {
      var i, j :| 0 <= i < j < |s| && s[i] == sep && s[j] != sep;
      assert s[1..][j - 1] != sep;
      var k :| 0 <= k < |rest| && rest[k] != "";
      assert Fields(s, sep)[k + 1] != "";
    }
    if exists k | 1 <= k < |Fields(s, sep)| :: Fields(s, sep)[k] != "" {
      var k :| 1 <= k < |Fields(s, sep)| && Fields(s, sep)[k] != "";
      assert rest[k - 1] != "";
      var j :| 0 <= j < |s[1..]| && s[1..][j] != sep;
      assert s[0] == sep && s[j + 1] != sep;
    }
  }

  /** The step of `FieldsLaterNonEmpty` for a string starting with another character, given the claim for its tail. */
  lemma LaterNonEmptyAfterOther(s: string, sep: char)
    requires s != [] && s[0] != sep
    requires (exists k | 1 <= k < |Fields(s[1..], sep)| :: Fields(s[1..], sep)[k] != "") <==> SepThenOther(s[1..], sep)
    ensures (exists k | 1 <= k < |Fields(s, sep)| :: Fields(s, sep)[k] != "") <==> SepThenOther(s, sep)
  {
    var rest := Fields(s[1..], sep);
    assert Fields(s, sep) == [[s[0]] + rest[0]] + rest[1..];
    SepThenOtherTail(s, sep);
    if SepThenOther(s, sep) {
      var k :| 1 <= k < |rest| && rest[k] != "";
      assert Fields(s, sep)[k] != "";
    }
    if exists k | 1 <= k < |Fields(s, sep)| :: Fields(s, sep)[k] != "" {
      var k :| 1 <= k < |Fields(s, sep)| && Fields(s, sep)[k] != "";
      assert rest[k] != "";
    }
  }

  /** Dropping a first character other than the separator keeps a separator followed by another character. */
  lemma SepThenOtherTail(s: string, sep: char)
    requires s != [] && s[0] != sep
    ensures SepThenOther(s, sep) <==> SepThenOther(s[1..], sep)
  {
    if SepThenOther(s, sep) {
      var i, j :| 0 <= i < j < |s| && s[i] == sep && s[j] != sep;
      assert s[1..][i - 1] == sep && s[1..][j - 1] != sep;
    }
    if SepThenOther(s[1..], sep) {
      var i, j :| 0 <= i < j < |s[1..]| && s[1..][i] == sep && s[1..][j] != sep;
      assert s[i + 1] == sep && s[j + 1] != sep;
    }
  }

  /**
   * `s.split(sep)` has two pieces or more exactly when a character other
   * than the separator follows some separator: trailing empty fields are
   * dropped, and a string without the separator stays whole.
   */
  lemma SplitAtLeastTwo(s: string, sep: char)
    ensures |Split(s, sep)| >= 2 <==> SepThenOther(s, sep)
  {
    if sep in s {
      var all := Fields(s, sep);
      var r := Split(s, sep);
      DropTrailingEmptyPrefix(all);
      FieldsLaterNonEmpty(s, sep);
      if |r| >= 2 {
        assert all[|r| - 1] != "";
      }
      if SepThenOther(s, sep) {
        var k :| 1 <= k < |all| && all[k] != "";
        assert k < |r|;
      }
    } else {
      assert forall i | 0 <= i < |s| :: s[i] != sep;
    }
  }

  /** The white-space characters of the regular expression class `\s`. */
  predicate IsSpace(c: char) {
    c == ' ' || c == '\t' || c == '\n' || c == '\U{000B}' || c == '\U{000C}' || c == '\r'
  }

  predicate HasSpace(s: string) {
    exists i :: 0 <= i < |s| && IsSpace(s[i])
  }

  /** The fields of `s` between maximal runs of white space, empty first and last fields included. */
  function Runs(s: string): (parts: seq<string>)
    ensures |parts| >= 1
    ensures forall i, k :: 0 <= i < |parts| && 0 <= k < |parts[i]| ==> !IsSpace(parts[i][k])
    ensures forall i :: 0 < i < |parts| - 1 ==> parts[i] != ""
    ensures s != [] && IsSpace(s[0]) ==> |parts| >= 2 && parts[0] == ""
    decreases |s|
  {
    if s == [] then [""]
    else
      var rest := Runs(s[1..]);
      if IsSpace(s[0]) then
        if |s| > 1 && IsSpace(s[1]) then rest else [""] + rest
      else [[s[0]] + rest[0]] + rest[1..]
  }

  /**
   * `s.split("\\s+")`: the whole string when it holds no white space, else the
   * fields between white-space runs without the trailing empty ones.
   */
  function SplitWhitespace(s: string): (parts: seq<string>)
    ensures forall i, k :: 0 <= i < |parts| && 0 <= k < |parts[i]| ==> !IsSpace(parts[i][k])
    ensures HasSpace(s) ==> forall i :: 0 < i < |parts| ==> parts[i] != ""
    ensures !HasSpace(s) ==> parts == [s]
  {
    if !HasSpace(s) then [s]
    else
      DropTrailingEmptyPrefix(Runs(s));
      DropTrailingEmpty(Runs(s))
  }

  /** `Character.toLowerCase` on the ASCII and Latin-1 letters; every other character is kept. */
  function LowerChar(c: char): char {
    if 'A' <= c <= 'Z' || ('\U{00C0}' <= c <= '\U{00DE}' && c != '\U{00D7}') then (c as int + 32) as char
    else c
  }

  /** `s.toLowerCase()`, character by character. */
  function Lower(s: string): (r: string)
    ensures |r| == |s|
  {
    seq(|s|, i requires 0 <= i < |s| => LowerChar(s[i]))
  }

  /** Lower-casing twice is lower-casing once. */
  lemma LowerIdempotent(s: string)
    ensures Lower(Lower(s)) == Lower(s)
  {
    assert forall i :: 0 <= i < |s| ==> LowerChar(LowerChar(s[i])) == LowerChar(s[i]);
  }

  /** Lower-casing leaves white space where it is, so splitting sees the same separators. */
  lemma LowerKeepsSpaces(s: string, c: char)
    requires IsSpace(c)
    ensures c in Lower(s) <==> c in s
  {
    assert forall d :: LowerChar(d) == c <==> d == c;
    if c in s {
      var i :| 0 <= i < |s| && s[i] == c;
      assert Lower(s)[i] == c;
    }
  }
}
