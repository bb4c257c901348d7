/** The string operations the encoder leans on, written out over `seq<char>`:
    `startsWith`, `endsWith`, `Array.prototype.join`, `filter(Boolean)`,
    `split`, `padEnd`, the anchored `replace(/^#/, "")` and the
    `/\/(moments\/.+)$/` path match. */
module Text {

  import opened Wrappers

  predicate StartsWith(s: string, p: string)
  {
    |p| <= |s| && s[..|p|] == p
  }

  /** A string starts with anything it is built from. */
  lemma StartsWithConcat(p: string, v: string)
    ensures StartsWith(p + v, p)
  {
    assert (p + v)[..|p|] == p;
  }

  predicate EndsWith(s: string, p: string)
  {
    |p| <= |s| && s[|s| - |p|..] == p
  }

  /** `parts.join(sep)` */
  function Join(sep: string, parts: seq<string>): string
    decreases |parts|
  {
    if |parts| == 0 then ""
    else if |parts| == 1 then parts[0]
    else parts[0] + sep + Join(sep, parts[1..])
  }

  /** Three parts join with a separator between each two. */
  lemma JoinThree(sep: string, a: string, b: string, c: string)
    ensures Join(sep, [a, b, c]) == a + sep + (b + sep + c)
  {
    var parts := [a, b, c];
    assert parts[1..] == [b, c] && parts[1..][1..] == [c];
    assert Join(sep, [b, c]) == b + sep + c;
  }

  /** Joining two non-empty lists is joining each and putting one separator between. */
  lemma {:induction false} JoinAppend(sep: string, a: seq<string>, b: seq<string>)
    requires a != [] && b != []
    ensures Join(sep, a + b) == Join(sep, a) + sep + Join(sep, b)
    decreases |a|
  {
    if |a| == 1 {
      assert (a + b)[1..] == b;
    } else {
      assert (a + b)[1..] == a[1..] + b;
      JoinAppend(sep, a[1..], b);
    }
  }

  /** A joined list begins with its first element and ends with its last. */
  lemma {:induction false} JoinEnds(sep: string, parts: seq<string>)
    requires parts != []
    ensures StartsWith(Join(sep, parts), parts[0])
    ensures EndsWith(Join(sep, parts), parts[|parts| - 1])
    decreases |parts|
  {
    if |parts| > 1 {
      JoinEnds(sep, parts[1..]);
      var rest := Join(sep, parts[1..]);
      assert Join(sep, parts) == parts[0] + sep + rest;
      assert (parts[0] + sep + rest)[..|parts[0]|] == parts[0];
      var last := parts[|parts| - 1];
      assert rest[|rest| - |last|..] == last;
      assert (parts[0] + sep + rest)[|parts[0] + sep + rest| - |last|..] == rest[|rest| - |last|..];
    }
  }

  /** A list of two or more joins to a string opened by its first element, the separator and its second. */
  lemma JoinOpening(sep: string, parts: seq<string>)
    requires |parts| >= 2
    ensures StartsWith(Join(sep, parts), parts[0] + sep + parts[1])
  {
    var tail := parts[1..];
    JoinEnds(sep, tail);
    var jt := Join(sep, tail);
    assert Join(sep, parts) == parts[0] + sep + jt;
    assert (parts[0] + sep + jt)[..|parts[0] + sep + parts[1]|] == parts[0] + sep + jt[..|parts[1]|];
  }

  /** A list of two or more joins to a string closed by the separator and its last element. */
  lemma JoinClosing(sep: string, parts: seq<string>)
    requires |parts| >= 2
    ensures EndsWith(Join(sep, parts), sep + parts[|parts| - 1])
  {
    var front, last := parts[..|parts| - 1], parts[|parts| - 1];
    assert parts == front + [last];
    JoinAppend(sep, front, [last]);
    var jf := Join(sep, front);
    assert (jf + sep + last)[|jf + sep + last| - |sep + last|..] == sep + last;
  }

  /** A list of non-empty strings joins to "" exactly when it is empty. */
  lemma JoinEmptyIff(sep: string, parts: seq<string>)
    requires forall i :: 0 <= i < |parts| ==> parts[i] != ""
    ensures Join(sep, parts) == "" <==> parts == []
  {
    if parts != [] {
      JoinEnds(sep, parts);
    }
  }

  /** `s.split(sep)` for a one-character separator. */
  function Split(sep: char, s: string): (r: seq<string>)
    ensures |r| > 0
    decreases |s|
  {
    if |s| == 0 then [""]
    else
      var rest := Split(sep, s[1..]);
      if s[0] == sep then [""] + rest
      else [[s[0]] + rest[0]] + rest[1..]
  }

  lemma {:induction false} SplitPrefix(sep: char, w: string, s: string)
    requires sep !in w
    ensures Split(sep, w + s) == [w + Split(sep, s)[0]] + Split(sep, s)[1..]
    decreases |w|
  {
    var r := Split(sep, s);
    if |w| > 0 {
      var w' := w[1..];
      assert (w + s)[1..] == w' + s;
      SplitPrefix(sep, w', s);
      var rest := Split(sep, w' + s);
      assert rest == [w' + r[0]] + r[1..];
      assert Split(sep, w + s) == [[w[0]] + rest[0]] + rest[1..];
      assert rest[1..] == r[1..];
      assert [w[0]] + (w' + r[0]) == w + r[0];
    } else {
      assert w + s == s;
      assert w + r[0] == r[0];
      assert [r[0]] + r[1..] == r;
    }
  }

  /** Splitting undoes joining when no part holds the separator. */
  lemma {:induction false} SplitJoin(sep: char, parts: seq<string>)
    requires parts != []
    requires forall i :: 0 <= i < |parts| ==> sep !in parts[i]
    ensures Split(sep, Join([sep], parts)) == parts
    decreases |parts|
  {
    if |parts| == 1 {
      SplitPrefix(sep, parts[0], "");
      assert parts[0] + "" == parts[0];
      assert Split(sep, "") == [""];
    } else {
      var rest := Join([sep], parts[1..]);
      SplitJoin(sep, parts[1..]);
      assert Join([sep], parts) == parts[0] + ([sep] + rest);
      SplitPrefix(sep, parts[0], [sep] + rest);
      assert ([sep] + rest)[1..] == rest;
      var r := Split(sep, [sep] + rest);
      assert r == [""] + parts[1..];
      assert r[0] == "" && r[1..] == parts[1..];
      assert parts[0] + "" == parts[0];
      assert [parts[0]] + parts[1..] == parts;
    }
  }

  /** `parts.filter(Boolean)`: drops the empty strings, keeps the order. */
  function FilterNonEmpty(parts: seq<string>): (r: seq<string>)
    ensures forall i :: 0 <= i < |r| ==> r[i] != ""
    ensures forall t :: t in parts && t != "" ==> t in r
    ensures forall t :: t in r ==> t in parts
    ensures IsSubseq(r, parts)
    ensures |r| == |parts| - Count(parts, "")
    decreases |parts|
  {
    if parts == [] then []
    else
      var rest := FilterNonEmpty(parts[1..]);
      if parts[0] == "" then rest
      else
        assert ([parts[0]] + rest)[1..] == rest;
        [parts[0]] + rest
  }

  /** Filtering distributes over concatenation: each part is filtered on its own. */
  lemma {:induction false} FilterAppend(a: seq<string>, b: seq<string>)
    ensures FilterNonEmpty(a + b) == FilterNonEmpty(a) + FilterNonEmpty(b)
    decreases |a|
  {
    if a != [] {
      assert (a + b)[1..] == a[1..] + b;
      FilterAppend(a[1..], b);
    } else {
      assert a + b == b;
    }
  }

  /** Filtering a list that holds no empty string changes nothing. */
  lemma {:induction false} FilterKeepsNonEmpty(a: seq<string>)
    requires forall i :: 0 <= i < |a| ==> a[i] != ""
    ensures FilterNonEmpty(a) == a
    decreases |a|
  {
    if a != [] {
      FilterKeepsNonEmpty(a[1..]);
      assert [a[0]] + a[1..] == a;
    }
  }

  /** `s.replace(/^c/, "")`: drops one leading `c`, if there is one. */
  function StripLeading(s: string, c: char): (r: string)
    ensures EndsWith(s, r)
    ensures |s| - |r| == (if StartsWith(s, [c]) then 1 else 0)
  {
    if StartsWith(s, [c]) then
      assert s[|s| - (|s| - 1)..] == s[1..];
      s[1..]
    else
      assert s[|s| - |s|..] == s;
      s
  }

  /** `s.replace(/^#/, "")`, the colour normalisation. */
  function StripHash(s: string): (r: string)
    ensures EndsWith(s, r)
    ensures |s| - |r| == (if StartsWith(s, "#") then 1 else 0)
  {
    StripLeading(s, '#')
  }

  /** Only one `#` goes: a colour written `##FF0000` keeps its second one. */
  lemma StripHashOnce()
    ensures StripHash("##FF0000") == "#FF0000"
    ensures StripHash("FF0000") == "FF0000"
  {
    assert "FF0000"[..1] != "#" by {
      assert "FF0000"[..1][0] == 'F';
    }
  }

  /** `s.padEnd(n, [c])` */
  function PadEnd(s: string, n: nat, c: char): (r: string)
    ensures |r| == if |s| >= n then |s| else n
    ensures r[..|s|] == s
    ensures forall i :: |s| <= i < |r| ==> r[i] == c
  {
    if |s| >= n then s else s + seq(n - |s|, _ => c)
  }

  /** A JavaScript line terminator, which `.` in a regular expression does not match. */
  predicate IsLineTerminator(c: char)
  {
    c == '\n' || c == '\r' || c == '\U{2028}' || c == '\U{2029}'
  }

  const MomentsMarker: string := "/moments/"

  /** `/\/(moments\/.+)$/` matches with its `\/` at index `i`: the marker sits
      there and is followed by at least one character, none of them a line
      terminator, up to the end of the string. */
  predicate MomentsMatchAt(s: string, i: int)
  {
    0 <= i && i + |MomentsMarker| < |s| && s[i..i + |MomentsMarker|] == MomentsMarker &&
    forall k :: i + |MomentsMarker| <= k < |s| ==> !IsLineTerminator(s[k])
  }

  /** The leftmost match position at or after `from`, as the regex engine scans. */
  function FirstMomentsMatch(s: string, from: nat): (r: Option<nat>)
    requires from <= |s|
    ensures r.Some? ==> from <= r.value < |s| && MomentsMatchAt(s, r.value)
    ensures r.Some? ==> forall j :: from <= j < r.value ==> !MomentsMatchAt(s, j)
    ensures r.None? ==> forall j :: from <= j ==> !MomentsMatchAt(s, j)
    decreases |s| - from
  {
    if from == |s| then None
    else if MomentsMatchAt(s, from) then Some(from)
    else FirstMomentsMatch(s, from + 1)
  }

  /** `src.match(/\/(moments\/.+)$/)?.[1] ?? src`: the suffix from the leftmost
      matching `moments/`, or the whole source when nothing matches. */
  function ExtractMomentsPath(src: string): (r: string)
    ensures (forall i :: !MomentsMatchAt(src, i)) ==> r == src
    ensures forall i :: MomentsMatchAt(src, i) && (forall j :: 0 <= j < i ==> !MomentsMatchAt(src, j))
                        ==> r == src[i + 1..]
  {
    match FirstMomentsMatch(src, 0)
    case None => src
    case Some(i) => src[i + 1..]
  }

  /** The extracted path of a match always begins with `moments/` and is not empty after it. */
  lemma ExtractedPathShape(src: string)
    requires exists i :: MomentsMatchAt(src, i)
    ensures StartsWith(ExtractMomentsPath(src), "moments/")
    ensures |ExtractMomentsPath(src)| > |"moments/"|
  {
    var i := FirstMomentsMatch(src, 0).value;
    var r := src[i + 1..];
    assert r == ExtractMomentsPath(src);
    assert r[..8] == src[i + 1..i + 9];
    assert src[i + 1..i + 9] == MomentsMarker[1..];
  }

  /** Concrete cases: a marker at the start, a bare marker, a marker after a line break. */
  lemma MomentsPathExamples()
    ensures ExtractMomentsPath("/moments/a.png") == "moments/a.png"
    ensures ExtractMomentsPath("/moments/") == "/moments/"
    ensures ExtractMomentsPath("cdn/moments/x\n") == "cdn/moments/x\n"
  {
    assert MomentsMatchAt("/moments/a.png", 0);
    var s3 := "cdn/moments/x\n";
    assert IsLineTerminator(s3[13]);
  }

  /** The text of a token before its first `-`: `w` for `w-300`, `e` for `e-sharpen-5`. */
  function KeyOf(t: string): (k: string)
    ensures StartsWith(t, k) && '-' !in k
    ensures |k| < |t| ==> t[|k|] == '-'
    decreases |t|
  {
    if t == [] || t[0] == '-' then [] else [t[0]] + KeyOf(t[1..])
  }

  lemma {:induction false} KeyOfDashed(k: string, v: string)
    requires '-' !in k
    ensures KeyOf(k + "-" + v) == k
    decreases |k|
  {
    if k != [] {
      assert (k + "-" + v)[1..] == k[1..] + "-" + v;
      KeyOfDashed(k[1..], v);
      assert [k[0]] + k[1..] == k;
    }
  }

  function Keys(ts: seq<string>): (r: seq<string>)
    ensures |r| == |ts|
    ensures forall i :: 0 <= i < |ts| ==> r[i] == KeyOf(ts[i])
    decreases |ts|
  {
    if ts == [] then [] else [KeyOf(ts[0])] + Keys(ts[1..])
  }

  lemma KeysAppend(a: seq<string>, b: seq<string>)
    ensures Keys(a + b) == Keys(a) + Keys(b)
  {
    assert forall i :: 0 <= i < |a + b| ==> Keys(a + b)[i] == (Keys(a) + Keys(b))[i];
  }

  /** `f` of each element, the list built from the back as a push loop builds it. */
  function MapBack<T>(f: T -> string, xs: seq<T>): seq<string>
    decreases |xs|
  {
    if xs == [] then [] else MapBack(f, xs[..|xs| - 1]) + [f(xs[|xs| - 1])]
  }

  /** Appending to a non-empty list keeps its head and appends to its tail. */
  lemma AppendTail<T>(a: seq<T>, b: seq<T>)
    requires a != []
    ensures (a + b)[0] == a[0] && (a + b)[1..] == a[1..] + b
  {
  }

  /** Pushing one more element pushes its string. */
  lemma MapBackPush<T>(f: T -> string, xs: seq<T>, x: T)
    ensures MapBack(f, xs + [x]) == MapBack(f, xs) + [f(x)]
  {
    assert (xs + [x])[..|xs|] == xs;
  }

  /** One more element of a push loop: its string joins the end. */
  lemma MapBackTake<T>(f: T -> string, xs: seq<T>, i: nat)
    requires i < |xs|
    ensures MapBack(f, xs[..i + 1]) == MapBack(f, xs[..i]) + [f(xs[i])]
  {
    assert xs[..i + 1] == xs[..i] + [xs[i]];
    MapBackPush(f, xs[..i], xs[i]);
  }

  /** One string per element, in the elements' order. */
  lemma {:induction false} MapBackAt<T>(f: T -> string, xs: seq<T>)
    ensures |MapBack(f, xs)| == |xs|
    ensures forall j :: 0 <= j < |xs| ==> MapBack(f, xs)[j] == f(xs[j])
    decreases |xs|
  {
    if xs != [] {
      var front := xs[..|xs| - 1];
      MapBackAt(f, front);
      forall j | 0 <= j < |xs| ensures MapBack(f, xs)[j] == f(xs[j]) {
        if j < |front| {
          assert front[j] == xs[j];
        }
      }
    }
  }

  /** A non-empty list is its front followed by its last element. */
  lemma SplitLast<T>(xs: seq<T>)
    requires xs != []
    ensures xs == xs[..|xs| - 1] + [xs[|xs| - 1]]
  {
  }

  /** An element of the middle part is an element of the whole. */
  lemma InMiddle<T>(a: seq<T>, b: seq<T>, c: seq<T>, x: T)
    requires x in b
    ensures x in a + b + c
  {
    var j :| 0 <= j < |b| && b[j] == x;
    assert (a + b + c)[|a| + j] == x;
  }

  /** `a` is `b` with some elements left out and the rest in order. */
  predicate IsSubseq(a: seq<string>, b: seq<string>)
    decreases |b|
  {
    if a == [] then true
    else if b == [] then false
    else if a[0] == b[0] then IsSubseq(a[1..], b[1..])
    else IsSubseq(a, b[1..])
  }

  /** A subsequence of `b` is also one of `b` with an element put in front. */
  lemma {:induction false} SubseqCons(a: seq<string>, b: seq<string>, x: string)
    requires IsSubseq(a, b)
    ensures IsSubseq(a, [x] + b)
    decreases |b|, 1
  {
    assert ([x] + b)[1..] == b;
    if a != [] && a[0] == x {
      SubseqDrop(a, b);
    }
  }

  /** Leaving out the first element of a subsequence keeps it a subsequence. */
  lemma {:induction false} SubseqDrop(a: seq<string>, b: seq<string>)
    requires a != [] && IsSubseq(a, b)
    ensures IsSubseq(a[1..], b)
    decreases |b|, 0
  {
    if a[0] == b[0] {
      SubseqCons(a[1..], b[1..], b[0]);
    } else {
      SubseqDrop(a, b[1..]);
      SubseqCons(a[1..], b[1..], b[0]);
    }
    assert [b[0]] + b[1..] == b;
  }

  predicate Distinct(s: seq<string>)
  {
    forall i, j :: 0 <= i < j < |s| ==> s[i] != s[j]
  }

  /** How many tokens start with `p`. */
  function CountPrefixed(ts: seq<string>, p: string): nat
    decreases |ts|
  {
    if ts == [] then 0
    else (if StartsWith(ts[0], p) then 1 else 0) + CountPrefixed(ts[1..], p)
  }

  lemma {:induction false} CountPrefixedAppend(a: seq<string>, b: seq<string>, p: string)
    ensures CountPrefixed(a + b, p) == CountPrefixed(a, p) + CountPrefixed(b, p)
    decreases |a|
  {
    if a != [] {
      assert (a + b)[1..] == a[1..] + b;
      CountPrefixedAppend(a[1..], b, p);
    } else {
      assert a + b == b;
    }
  }

  /** A token list none of whose tokens starts with `p[0]` holds no token starting with `p`. */
  lemma {:induction false} CountPrefixedNone(ts: seq<string>, p: string)
    requires p != []
    requires forall i :: 0 <= i < |ts| ==> |ts[i]| > 0 && ts[i][0] != p[0]
    ensures CountPrefixed(ts, p) == 0
    decreases |ts|
  {
    if ts != [] {
      CountPrefixedNone(ts[1..], p);
    }
  }

  /** How many tokens equal `t`. */
  function Count(ts: seq<string>, t: string): nat
    decreases |ts|
  {
    if ts == [] then 0
    else (if ts[0] == t then 1 else 0) + Count(ts[1..], t)
  }

  lemma {:induction false} CountAppend(a: seq<string>, b: seq<string>, t: string)
    ensures Count(a + b, t) == Count(a, t) + Count(b, t)
    decreases |a|
  {
    if a != [] {
      assert (a + b)[1..] == a[1..] + b;
      CountAppend(a[1..], b, t);
    } else {
      assert a + b == b;
    }
  }

  /** No token of `ts` starts with the character `c` (and none is empty). */
  predicate NoInitial(ts: seq<string>, c: char)
  {
    forall i :: 0 <= i < |ts| ==> |ts[i]| > 0 && ts[i][0] != c
  }

  /** Every token of `ts` is non-empty and starts with one of the characters `cs`. */
  predicate InitialsIn(ts: seq<string>, cs: string)
  {
    forall i :: 0 <= i < |ts| ==> |ts[i]| > 0 && ts[i][0] in cs
  }

  lemma InitialsAppend(a: seq<string>, b: seq<string>, cs: string)
    requires InitialsIn(a, cs) && InitialsIn(b, cs)
    ensures InitialsIn(a + b, cs)
  {
    forall i | 0 <= i < |a + b| ensures |(a + b)[i]| > 0 && (a + b)[i][0] in cs {
      if i < |a| {
        assert (a + b)[i] == a[i];
      } else {
        assert (a + b)[i] == b[i - |a|];
      }
    }
  }

  lemma InitialsWiden(ts: seq<string>, cs: string, ds: string)
    requires InitialsIn(ts, cs) && forall c :: c in cs ==> c in ds
    ensures InitialsIn(ts, ds)
  {
  }

  /** A key that starts with none of `cs` is the key of no token of `ts`. */
  lemma InitialsKeys(ts: seq<string>, cs: string, k: string)
    requires InitialsIn(ts, cs) && k != "" && k[0] !in cs
    ensures k !in Keys(ts)
  {
    forall i | 0 <= i < |ts| ensures Keys(ts)[i] != k {
      var key := KeyOf(ts[i]);
      if key != "" {
        assert key[0] == ts[i][0];
      }
    }
  }

  /** A string that starts with a token holding a `-` has that token's key. */
  lemma {:induction false} KeyOfPrefix(s: string, t: string)
    requires StartsWith(s, t) && '-' in t
    ensures KeyOf(s) == KeyOf(t)
    decreases |t|
  {
    assert s[0] == t[0];
    if t[0] != '-' {
      assert StartsWith(s[1..], t[1..]) && '-' in t[1..] by {
        assert s[1..][..|t[1..]|] == s[..|t|][1..];
        var j :| 0 <= j < |t| && t[j] == '-';
        assert j > 0 && t[1..][j - 1] == '-';
      }
      KeyOfPrefix(s[1..], t[1..]);
    }
  }

  /** A list none of whose tokens starts with `t[0]` does not hold `t`. */
  lemma {:induction false} CountNone(ts: seq<string>, t: string)
    requires t != [] && NoInitial(ts, t[0])
    ensures Count(ts, t) == 0
    decreases |ts|
  {
    if ts != [] {
      CountNone(ts[1..], t);
    }
  }

  lemma NoInitialAppend(a: seq<string>, b: seq<string>, c: char)
    ensures NoInitial(a + b, c) <==> NoInitial(a, c) && NoInitial(b, c)
  {
    if NoInitial(a + b, c) {
      forall i | 0 <= i < |a| ensures |a[i]| > 0 && a[i][0] != c {
        assert a[i] == (a + b)[i];
      }
      forall i | 0 <= i < |b| ensures |b[i]| > 0 && b[i][0] != c {
        assert b[i] == (a + b)[|a| + i];
      }
    }
    if NoInitial(a, c) && NoInitial(b, c) {
      forall i | 0 <= i < |a + b| ensures |(a + b)[i]| > 0 && (a + b)[i][0] != c {
        if i < |a| {
          assert (a + b)[i] == a[i];
        } else {
          assert (a + b)[i] == b[i - |a|];
        }
      }
    }
  }

}
