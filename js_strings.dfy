/**
 * The two string operations the gateway applies to request input:
 * `String.prototype.split` with a one-character separator, and `toUpperCase`.
 */
module JsStrings {

  /**
   * `s.split(sep)`: the maximal separator-free pieces of `s`, including the empty pieces
   * around a leading, trailing or doubled separator, so `"".split(" ")` is `[""]`.
   */
  function Split(s: string, sep: char): (fields: seq<string>)
    ensures |fields| >= 1
    ensures forall i :: 0 <= i < |fields| ==> sep !in fields[i]
    decreases |s|
  {
    if s == [] then [[]]
    else
      var rest := Split(s[1..], sep);
      if s[0] == sep then [[]] + rest
      else [[s[0]] + rest[0]] + rest[1..]
  }

  /** `fields.join(sep)`: the inverse of `Split`. */
  function Join(fields: seq<string>, sep: char): string
    requires |fields| >= 1
    decreases |fields|
  {
    if |fields| == 1 then fields[0] else fields[0] + [sep] + Join(fields[1..], sep)
  }

  /** Splitting loses nothing: joining the fields back with the separator gives the input. */
  lemma {:induction false} JoinSplit(s: string, sep: char)
    ensures Join(Split(s, sep), sep) == s
    decreases |s|
  {
    if s != [] {
      JoinSplit(s[1..], sep);
      var rest := Split(s[1..], sep);
      if s[0] == sep {
        assert Split(s, sep)[1..] == rest;
      } else if |rest| == 1 {
        assert Split(s, sep) == [[s[0]] + rest[0]];
      } else {
        var fields := Split(s, sep);
        assert fields[1..] == rest[1..];
        calc {
          Join(fields, sep);
          fields[0] + [sep] + Join(rest[1..], sep);
          [s[0]] + (rest[0] + [sep] + Join(rest[1..], sep));
          [s[0]] + Join(rest, sep);
          [s[0]] + s[1..];
        }
      }
    }
  }

  /** A separator-free word glued to the front of `t` extends the first field of `t`. */
  lemma {:induction false} SplitPrefix(w: string, t: string, sep: char)
    requires sep !in w
    ensures Split(w + t, sep) == [w + Split(t, sep)[0]] + Split(t, sep)[1..]
    decreases |w|
  {
    var ft := Split(t, sep);
    if w == [] {
      assert w + t == t && w + ft[0] == ft[0];
      assert [ft[0]] + ft[1..] == ft;
    } else {
      SplitPrefix(w[1..], t, sep);
      assert (w + t)[0] == w[0] && (w + t)[1..] == w[1..] + t;
      assert [w[0]] + (w[1..] + ft[0]) == w + ft[0];
    }
  }

  /** A separator-free word followed by the separator becomes a field of its own. */
  lemma SplitField(w: string, t: string, sep: char)
    requires sep !in w
    ensures Split(w + [sep] + t, sep) == [w] + Split(t, sep)
  {
    SplitPrefix(w, [sep] + t, sep);
    assert w + [sep] + t == w + ([sep] + t);
    assert ([sep] + t)[0] == sep && ([sep] + t)[1..] == t;
    assert Split([sep] + t, sep) == [[]] + Split(t, sep);
    assert w + [] == w;
  }

  /** Splitting undoes joining, for fields that do not contain the separator. */
  lemma {:induction false} SplitJoin(fields: seq<string>, sep: char)
    requires |fields| >= 1
    requires forall i :: 0 <= i < |fields| ==> sep !in fields[i]
    ensures Split(Join(fields, sep), sep) == fields
    decreases |fields|
  {
    if |fields| == 1 {
      SplitPrefix(fields[0], [], sep);
      assert fields[0] + [] == fields[0];
    } else {
      SplitJoin(fields[1..], sep);
      SplitField(fields[0], Join(fields[1..], sep), sep);
      assert [fields[0]] + fields[1..] == fields;
    }
  }

  /** `c.toUpperCase()` for one character; only the ASCII letters are mapped. */
  function UpperChar(c: char): char {
    if 'a' <= c <= 'z' then (c as int - 32) as char else c
  }

  /** `s.toUpperCase()`, character by character. */
  function ToUpperCase(s: string): (r: string)
    ensures |r| == |s|
    ensures forall i :: 0 <= i < |s| ==> !('a' <= r[i] <= 'z')
    ensures forall i :: 0 <= i < |s| && !('a' <= s[i] <= 'z') ==> r[i] == s[i]
    ensures forall i :: 0 <= i < |s| && 'a' <= s[i] <= 'z' ==> r[i] as int == s[i] as int - 32
    decreases |s|
  {
    if s == [] then [] else [UpperChar(s[0])] + ToUpperCase(s[1..])
  }

  /** Upper-casing twice is upper-casing once. */
  lemma {:induction false} ToUpperCaseIdempotent(s: string)
    ensures ToUpperCase(ToUpperCase(s)) == ToUpperCase(s)
    decreases |s|
  {
    if s != [] {
      var u := ToUpperCase(s);
      ToUpperCaseIdempotent(s[1..]);
      assert u[1..] == ToUpperCase(s[1..]);
    }
  }
}
