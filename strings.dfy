/** Go's `strings.Fields`: the fields of a string are its maximal runs of
    non-space characters, in order, where "space" is `unicode.IsSpace`.

    A Go string is a byte sequence decoded as UTF-8; here a string is the
    sequence of Unicode scalar values it decodes to. */
module Strings {

  /** `unicode.IsSpace`: the Latin-1 spaces '\t', '\n', '\v', '\f', '\r',
      ' ', U+0085 and U+00A0, and beyond Latin-1 the other characters with
      the Unicode White_Space property. */
  predicate IsSpace(c: char) {
    var n := c as int;
    || (0x09 <= n <= 0x0D) || n == 0x20 || n == 0x85 || n == 0xA0
    || n == 0x1680 || (0x2000 <= n <= 0x200A) || n == 0x2028 || n == 0x2029
    || n == 0x202F || n == 0x205F || n == 0x3000
  }

  predicate AllSpace(s: string) {
    forall i :: 0 <= i < |s| ==> IsSpace(s[i])
  }

  predicate NoSpace(s: string) {
    forall i :: 0 <= i < |s| ==> !IsSpace(s[i])
  }

  /** A field: non-empty and free of spaces. */
  predicate IsField(t: string) {
    t != [] && NoSpace(t)
  }

  predicate AllFields(ts: seq<string>) {
    forall i :: 0 <= i < |ts| ==> IsField(ts[i])
  }

  /** The tokens glued back together, without separators. */
  function Concat(ts: seq<string>): string {
    if ts == [] then [] else ts[0] + Concat(ts[1..])
  }

  /** The input with every space character deleted. */
  function RemoveSpaces(s: string): (r: string)
    ensures NoSpace(r)
  {
    if s == [] then []
    else (if IsSpace(s[0]) then [] else [s[0]]) + RemoveSpaces(s[1..])
  }

  /** The tokens separated by one blank each (`strings.Join(ts, " ")`). */
  function Join(ts: seq<string>): string {
    if ts == [] then []
    else if |ts| == 1 then ts[0]
    else ts[0] + " " + Join(ts[1..])
  }

  /** The pending field, if there is one. */
  function Flush(cur: string): seq<string> {
    if cur == [] then [] else [cur]
  }

  /** Putting the pending field in front of well-formed fields keeps them
      well formed and puts its characters in front of theirs. */
  lemma FlushPrepend(cur: string, rest: seq<string>)
    requires NoSpace(cur) && AllFields(rest)
    ensures AllFields(Flush(cur) + rest)
    ensures Concat(Flush(cur) + rest) == cur + Concat(rest)
  {
    if cur == [] {
      assert Flush(cur) + rest == rest;
    } else {
      assert (Flush(cur) + rest)[1..] == rest;
    }
  }

  /** A left-to-right scan of `s` that has already collected `cur`, the
      non-space characters of the field in progress. The fields it yields
      are well formed and, glued together, give back every non-space
      character of `cur + s`, in order. */
  function Scan(s: string, cur: string): (r: seq<string>)
    requires NoSpace(cur)
    ensures AllFields(r)
    ensures Concat(r) == cur + RemoveSpaces(s)
    decreases |s|
  {
    if s == [] then
      FlushPrepend(cur, []);
      Flush(cur)
    else if IsSpace(s[0]) then
      var rest := Scan(s[1..], []);
      FlushPrepend(cur, rest);
      assert RemoveSpaces(s) == RemoveSpaces(s[1..]);
      Flush(cur) + rest
    else
      var r := Scan(s[1..], cur + [s[0]]);
      assert cur + RemoveSpaces(s) == cur + [s[0]] + RemoveSpaces(s[1..]);
      r
  }

  /** `strings.Fields(s)`. */
  function Fields(s: string): (r: seq<string>)
    ensures AllFields(r)
    ensures Concat(r) == RemoveSpaces(s)
  {
    Scan(s, [])
  }

  /** A non-empty run of spaces ends the pending field and is otherwise
      skipped. */
  lemma {:induction false} ScanSpaceRun(w: string, b: string, cur: string)
    requires NoSpace(cur) && AllSpace(w) && w != []
    ensures Scan(w + b, cur) == Flush(cur) + Fields(b)
    decreases |w|
  {
    assert (w + b)[0] == w[0] && (w + b)[1..] == w[1..] + b;
    if |w| > 1 {
      ScanSpaceRun(w[1..], b, []);
    }
  }

  /** Characters of a field are collected into the pending field. */
  lemma {:induction false} ScanWord(t: string, x: string, cur: string)
    requires NoSpace(cur) && NoSpace(t)
    ensures NoSpace(cur + t)
    ensures Scan(t + x, cur) == Scan(x, cur + t)
    decreases |t|
  {
    if t == [] {
      assert t + x == x && cur + t == cur;
    } else {
      assert (t + x)[0] == t[0] && (t + x)[1..] == t[1..] + x;
      assert (cur + [t[0]]) + t[1..] == cur + t;
      ScanWord(t[1..], x, cur + [t[0]]);
    }
  }

  /** Any two non-empty runs of spaces at the same place give the same
      fields, wherever they sit in the input. */
  lemma {:induction false} ScanRunsEquivalent(a: string, w: string, w': string, b: string, cur: string)
    requires NoSpace(cur)
    requires AllSpace(w) && w != [] && AllSpace(w') && w' != []
    ensures Scan(a + w + b, cur) == Scan(a + w' + b, cur)
    decreases |a|
  {
    if a == [] {
      assert a + w + b == w + b && a + w' + b == w' + b;
      ScanSpaceRun(w, b, cur);
      ScanSpaceRun(w', b, cur);
    } else {
      assert (a + w + b)[0] == a[0] && (a + w + b)[1..] == a[1..] + w + b;
      assert (a + w' + b)[0] == a[0] && (a + w' + b)[1..] == a[1..] + w' + b;
      if IsSpace(a[0]) {
        ScanRunsEquivalent(a[1..], w, w', b, []);
      } else {
        ScanRunsEquivalent(a[1..], w, w', b, cur + [a[0]]);
      }
    }
  }

  /** Runs of whitespace do not matter: replacing one non-empty run of
      spaces by another leaves the fields unchanged. */
  lemma FieldsRunsEquivalent(a: string, w: string, w': string, b: string)
    requires AllSpace(w) && w != [] && AllSpace(w') && w' != []
    ensures Fields(a + w + b) == Fields(a + w' + b)
  {
    ScanRunsEquivalent(a, w, w', b, []);
  }

  /** Leading spaces do not matter. */
  lemma FieldsLeadingSpace(w: string, s: string)
    requires AllSpace(w)
    ensures Fields(w + s) == Fields(s)
  {
    if w == [] {
      assert w + s == s;
    } else {
      ScanSpaceRun(w, s, []);
    }
  }

  lemma {:induction false} ScanTrailingSpace(a: string, w: string, cur: string)
    requires NoSpace(cur) && AllSpace(w)
    ensures Scan(a + w, cur) == Scan(a, cur)
    decreases |a|
  {
    if a == [] {
      assert a + w == w;
      if w != [] {
        ScanSpaceRun(w, [], cur);
        assert w + [] == w;
      }
    } else {
      assert (a + w)[0] == a[0] && (a + w)[1..] == a[1..] + w;
      if IsSpace(a[0]) {
        ScanTrailingSpace(a[1..], w, []);
      } else {
        ScanTrailingSpace(a[1..], w, cur + [a[0]]);
      }
    }
  }

  /** Trailing spaces do not matter. */
  lemma FieldsTrailingSpace(s: string, w: string)
    requires AllSpace(w)
    ensures Fields(s + w) == Fields(s)
  {
    ScanTrailingSpace(s, w, []);
  }

  /** An input that is only spaces (the empty string among them) has no
      fields. */
  lemma FieldsOfSpaces(w: string)
    requires AllSpace(w)
    ensures Fields(w) == []
  {
    FieldsLeadingSpace(w, []);
    assert w + [] == w;
  }

  /** Round trip: well-formed fields joined by blanks split back into
      exactly the same fields, in the same order. */
  lemma {:induction false} FieldsOfJoin(ts: seq<string>)
    requires AllFields(ts)
    ensures Fields(Join(ts)) == ts
    decreases |ts|
  {
    if ts == [] {
    } else if |ts| == 1 {
      ScanWord(ts[0], [], []);
      assert ts[0] + [] == ts[0];
      assert [] + ts[0] == ts[0];
    } else {
      var rest := Join(ts[1..]);
      assert Join(ts) == ts[0] + (" " + rest);
      ScanWord(ts[0], " " + rest, []);
      assert [] + ts[0] == ts[0];
      ScanSpaceRun(" ", rest, ts[0]);
      assert AllFields(ts[1..]) by {
        forall i | 0 <= i < |ts[1..]| ensures IsField(ts[1..][i]) {
          assert ts[1..][i] == ts[i + 1];
        }
      }
      FieldsOfJoin(ts[1..]);
      assert ts == [ts[0]] + ts[1..];
    }
  }

  /** Splitting is idempotent: splitting the re-joined fields of a string
      gives the same fields again. */
  lemma FieldsIdempotent(s: string)
    ensures Fields(Join(Fields(s))) == Fields(s)
  {
    FieldsOfJoin(Fields(s));
  }

  /** The two spellings "a b  c" and "a  b c" both split into
      ["a", "b", "c"]. */
  lemma FieldsExample()
    ensures Fields("a b  c") == ["a", "b", "c"]
    ensures Fields("a  b c") == ["a", "b", "c"]
  {
    assert Join(["a", "b", "c"]) == "a b c";
    FieldsOfJoin(["a", "b", "c"]);
    assert "a b  c" == "a b" + "  " + "c" && "a b c" == "a b" + " " + "c";
    FieldsRunsEquivalent("a b", "  ", " ", "c");
    assert "a  b c" == "a" + "  " + "b c" && "a b c" == "a" + " " + "b c";
    FieldsRunsEquivalent("a", "  ", " ", "b c");
  }
}
