/** The handful of Go standard-library string operations the core relies on
    (`strings.TrimSpace`, `strings.Trim`, `strings.Split`, `strings.SplitN`
    with a limit of 2, `filepath.Ext`), on strings viewed as sequences of
    Unicode code points. */
module GoStrings {

  /** `unicode.IsSpace`: the Latin-1 spaces plus the Unicode White_Space
      property outside Latin-1. */
  predicate IsSpace(c: char) {
    || c == '\t' || c == '\n' || c == '\U{000B}' || c == '\U{000C}' || c == '\r' || c == ' '
    || c == '\U{0085}' || c == '\U{00A0}' || c == '\U{1680}'
    || ('\U{2000}' <= c <= '\U{200A}')
    || c == '\U{2028}' || c == '\U{2029}' || c == '\U{202F}' || c == '\U{205F}' || c == '\U{3000}'
  }

  /** Drops every leading character satisfying `cut`. */
  function TrimLeft(s: string, cut: char -> bool): (r: string)
    ensures |r| <= |s|
    ensures r != [] ==> !cut(r[0])
    decreases |s|
  {
    if s != [] && cut(s[0]) then TrimLeft(s[1..], cut) else s
  }

  /** What `TrimLeft` drops is a run of cut characters, and what it keeps
      is the rest of the string. */
  lemma {:induction false} TrimLeftSuffix(s: string, cut: char -> bool)
    ensures var r := TrimLeft(s, cut);
      r == s[|s| - |r|..] && forall k :: 0 <= k < |s| - |r| ==> cut(s[k])
    decreases |s|
  {
    if s != [] && cut(s[0]) {
      TrimLeftSuffix(s[1..], cut);
    }
  }

  /** Drops every trailing character satisfying `cut`. */
  function TrimRight(s: string, cut: char -> bool): (r: string)
    ensures |r| <= |s|
    ensures r != [] ==> !cut(r[|r| - 1])
    decreases |s|
  {
    if s != [] && cut(s[|s| - 1]) then TrimRight(s[..|s| - 1], cut) else s
  }

  /** What `TrimRight` drops is a run of cut characters, and what it keeps
      is the start of the string. */
  lemma {:induction false} TrimRightPrefix(s: string, cut: char -> bool)
    ensures var r := TrimRight(s, cut);
      r == s[..|r|] && forall k :: |r| <= k < |s| ==> cut(s[k])
    decreases |s|
  {
    if s != [] && cut(s[|s| - 1]) {
      TrimRightPrefix(s[..|s| - 1], cut);
    }
  }

  /** `strings.TrimFunc`: both ends, left first. The result is empty exactly
      when every character is cut, and otherwise begins and ends with a kept
      character. */
  function Trim(s: string, cut: char -> bool): (r: string)
    ensures |r| <= |s|
    ensures r != [] ==> !cut(r[0]) && !cut(r[|r| - 1])
    ensures r == [] <==> forall k :: 0 <= k < |s| ==> cut(s[k])
  {
    var l := TrimLeft(s, cut);
    TrimLeftSuffix(s, cut);
    TrimRightPrefix(l, cut);
    TrimRight(l, cut)
  }

  /** Trimming leaves alone a string whose ends are kept. */
  lemma TrimKeeps(s: string, cut: char -> bool)
    requires s != [] ==> !cut(s[0]) && !cut(s[|s| - 1])
    ensures Trim(s, cut) == s
  {
  }

  /** Trimming removes one cut character from each end of a string whose
      own ends are kept. */
  lemma TrimSurrounded(s: string, c: char, cut: char -> bool)
    requires cut(c) && s != [] && !cut(s[0]) && !cut(s[|s| - 1])
    ensures Trim([c] + s + [c], cut) == s
  {
    var w := [c] + s + [c];
    assert w[1..] == s + [c];
    assert (s + [c])[0] == s[0];
    assert TrimLeft(w, cut) == s + [c];
    assert (s + [c])[..|s|] == s;
    assert TrimRight(s, cut) == s;
  }

  /** Trimming only removes characters: everything in the result was in
      the input. */
  lemma TrimWithin(s: string, cut: char -> bool)
    ensures forall c :: c in Trim(s, cut) ==> c in s
  {
    var l := TrimLeft(s, cut);
    TrimLeftSuffix(s, cut);
    TrimRightPrefix(l, cut);
  }

  /** `strings.TrimSpace`. */
  function TrimSpace(s: string): (r: string)
    ensures r != [] ==> !IsSpace(r[0]) && !IsSpace(r[|r| - 1])
    ensures r == [] <==> forall k :: 0 <= k < |s| ==> IsSpace(s[k])
  {
    Trim(s, IsSpace)
  }

  /** Position of the first occurrence of `c`. */
  function IndexOf(s: string, c: char): (i: nat)
    requires c in s
    ensures i < |s| && s[i] == c && c !in s[..i]
  {
    if s[0] == c then 0 else 1 + IndexOf(s[1..], c)
  }

  /** Glues `parts` back together with `sep` between neighbours: the
      reference that `Split` inverts. */
  function Join(parts: seq<string>, sep: char): string {
    if |parts| == 0 then ""
    else if |parts| == 1 then parts[0]
    else parts[0] + [sep] + Join(parts[1..], sep)
  }

  /** Joining two non-empty runs of pieces is joining each, with one
      separator between. */
  lemma {:induction false} JoinAppend(a: seq<string>, b: seq<string>, sep: char)
    requires |a| >= 1 && |b| >= 1
    ensures Join(a + b, sep) == Join(a, sep) + [sep] + Join(b, sep)
    decreases |a|
  {
    if |a| == 1 {
      assert (a + b)[1..] == b;
    } else {
      assert (a + b)[1..] == a[1..] + b;
      JoinAppend(a[1..], b, sep);
    }
  }

  /** `strings.Split(s, sep)` for a one-character separator: the pieces
      between separators, including empty leading, trailing and adjacent
      ones, so there is always at least one piece. */
  function Split(s: string, sep: char): (parts: seq<string>)
    ensures |parts| >= 1
    ensures forall k :: 0 <= k < |parts| ==> sep !in parts[k]
    ensures Join(parts, sep) == s
    decreases |s|
  {
    if sep !in s then [s]
    else
      var i := IndexOf(s, sep);
      var rest := Split(s[i + 1..], sep);
      var parts := [s[..i]] + rest;
      assert parts[1..] == rest;
      assert s == s[..i] + [sep] + s[i + 1..];
      parts
  }

  /** Splitting a join of separator-free pieces gives the pieces back. */
  lemma {:induction false} SplitJoin(parts: seq<string>, sep: char)
    requires |parts| >= 1
    requires forall k :: 0 <= k < |parts| ==> sep !in parts[k]
    ensures Split(Join(parts, sep), sep) == parts
    decreases |parts|
  {
    var s := Join(parts, sep);
    if |parts| == 1 {
      assert s == parts[0];
    } else {
      var p := parts[0];
      var rest := parts[1..];
      assert s == p + [sep] + Join(rest, sep);
      assert s[|p|] == sep;
      assert sep in s;
      var i := IndexOf(s, sep);
      assert i == |p| by {
        assert s[..|p|] == p;
      }
      assert s[..i] == p;
      assert s[i + 1..] == Join(rest, sep);
      SplitJoin(rest, sep);
    }
  }

  /** `strings.SplitN(s, string(sep), 2)` seen as an optional pair: `None`
      when `sep` does not occur (one piece), otherwise the text before the
      FIRST separator and everything after it. */
  function SplitFirst(s: string, sep: char): (r: CutResult)
    ensures r.NotFound? <==> sep !in s
    ensures r.Found? ==> s == r.before + [sep] + r.after && sep !in r.before
  {
    if sep !in s then NotFound
    else
      var i := IndexOf(s, sep);
      assert s == s[..i] + [sep] + s[i + 1..];
      Found(s[..i], s[i + 1..])
  }

  datatype CutResult = NotFound | Found(before: string, after: string)

  /** A separator-free prefix followed by the separator ends at the first
      occurrence of the separator. */
  lemma FirstIndex(s: string, sep: char, before: string, after: string)
    requires s == before + [sep] + after && sep !in before
    ensures sep in s && IndexOf(s, sep) == |before|
    ensures s[..|before|] == before && s[|before| + 1..] == after
  {
    assert s[|before|] == sep;
    var i := IndexOf(s, sep);
    assert s[..|before|] == before;
    assert i == |before| by {
      assert s[..|before|] == before;
    }
  }

  /** `filepath.Ext` with `/` as the separator: the suffix of the path from
      the last `.` of its final element, or "" when that element has no `.`
      (the three lemmas below pin down which). */
  function Ext(path: string): (e: string)
    ensures |e| <= |path|
    ensures e != "" ==> e[0] == '.' && '.' !in e[1..] && '/' !in e
    decreases |path|
  {
    if path == [] || path[|path| - 1] == '/' then ""
    else if path[|path| - 1] == '.' then "."
    else
      var e := Ext(path[..|path| - 1]);
      if e == "" then "" else e + [path[|path| - 1]]
  }

  /** The extension is a suffix of the path. */
  lemma {:induction false} ExtIsSuffix(path: string)
    ensures Ext(path) == path[|path| - |Ext(path)|..]
    decreases |path|
  {
    if path != [] && path[|path| - 1] != '/' && path[|path| - 1] != '.' {
      var init := path[..|path| - 1];
      ExtIsSuffix(init);
      if Ext(init) != "" {
        assert path == init + [path[|path| - 1]];
      }
    }
  }

  /** One more character after the path: a `/` ends the element, a `.`
      starts a new extension, and any other character extends the current
      extension, if there is one. */
  lemma ExtAppend(p: string, c: char)
    ensures c == '/' ==> Ext(p + [c]) == ""
    ensures c == '.' ==> Ext(p + [c]) == "."
    ensures c != '/' && c != '.' ==> Ext(p + [c]) == (if Ext(p) == "" then "" else Ext(p) + [c])
  {
    assert (p + [c])[..|p|] == p;
  }

  /** Text with neither a dot nor a slash extends an existing extension. */
  lemma {:induction false} ExtExtends(p: string, tail: string)
    requires Ext(p) != "" && '.' !in tail && '/' !in tail
    ensures Ext(p + tail) == Ext(p) + tail
    decreases |tail|
  {
    if tail == [] {
      assert p + tail == p;
    } else {
      var t' := tail[..|tail| - 1];
      var c := tail[|tail| - 1];
      assert tail == t' + [c];
      assert '.' !in t' && '/' !in t' && c != '.' && c != '/';
      ExtExtends(p, t');
      var q := p + t';
      assert p + tail == q + [c];
      ExtAppend(q, c);
      assert (Ext(p) + t') + [c] == Ext(p) + (t' + [c]);
    }
  }

  /** The extension of a path whose final element has a dot is everything
      from its last dot. */
  lemma ExtFromLastDot(pre: string, tail: string)
    requires '.' !in tail && '/' !in tail
    ensures Ext(pre + "." + tail) == "." + tail
  {
    ExtAppend(pre, '.');
    assert pre + "." == pre + ['.'];
    ExtExtends(pre + ".", tail);
  }

  /** A final path element without a dot gives no extension, even when an
      earlier element has one. */
  lemma {:induction false} NoExtAfterSlash(pre: string, tail: string)
    requires '.' !in tail && '/' !in tail
    ensures Ext(pre + "/" + tail) == ""
    decreases |tail|
  {
    if tail == [] {
      assert pre + "/" + tail == pre + ['/'];
      ExtAppend(pre, '/');
    } else {
      var t' := tail[..|tail| - 1];
      var c := tail[|tail| - 1];
      assert tail == t' + [c];
      var p' := pre + "/" + t';
      NoExtAfterSlash(pre, t');
      assert pre + "/" + tail == p' + [c];
      ExtAppend(p', c);
    }
  }

  /** A path with neither a dot nor a slash has no extension. */
  lemma {:induction false} NoExtWithoutDot(tail: string)
    requires '.' !in tail && '/' !in tail
    ensures Ext(tail) == ""
    decreases |tail|
  {
    if tail != [] {
      var t' := tail[..|tail| - 1];
      assert tail[|tail| - 1] in tail;
      NoExtWithoutDot(t');
    }
  }
}
