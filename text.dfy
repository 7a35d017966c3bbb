/** String operations the feed code takes from JavaScript's String API and from two
    regular expressions: toLowerCase, includes, indexOf, replace (first occurrence),
    trim, substring, the tag stripper /<[^>]*>/g and the image matcher
    /<img[^>]+src="([^">]+)"/. */
module Text {
  import Sorting

  datatype Option<+T> = None | Some(value: T)

  // ---------------------------------------------------------------------------
  // Lower case (ASCII letters only)
  // ---------------------------------------------------------------------------

  function LowerChar(c: char): (d: char)
    ensures 'A' <= c <= 'Z' ==> d as int == c as int + 32
    ensures !('A' <= c <= 'Z') ==> d == c
    ensures !('A' <= d <= 'Z')
  {
    if 'A' <= c <= 'Z' then (c as int + 32) as char else c
  }

  /** `s.toLowerCase()`: every character is lowered, nothing else changes. */
  function Lower(s: string): (r: string)
    ensures |r| == |s|
  {
    seq(|s|, i requires 0 <= i < |s| => LowerChar(s[i]))
  }

  predicate IsLower(s: string) {
    forall i :: 0 <= i < |s| ==> !('A' <= s[i] <= 'Z')
  }

  lemma LowerIsLower(s: string)
    ensures IsLower(Lower(s))
    ensures IsLower(s) ==> Lower(s) == s
  {
  }

  lemma LowerIdempotent(s: string)
    ensures Lower(Lower(s)) == Lower(s)
  {
    LowerIsLower(s);
    LowerIsLower(Lower(s));
  }

  lemma LowerConcat(a: string, b: string)
    ensures Lower(a + b) == Lower(a) + Lower(b)
  {
  }

  // ---------------------------------------------------------------------------
  // Substring search
  // ---------------------------------------------------------------------------

  /** `sub` occurs in `s` starting at index `j`. */
  predicate OccursAt(s: string, sub: string, j: int) {
    0 <= j && j + |sub| <= |s| && s[j..j + |sub|] == sub
  }

  /** The first index at or after `k` where `sub` occurs (`s.indexOf(sub, k)`). */
  function IndexFrom(s: string, sub: string, k: nat): (r: Option<nat>)
    decreases |s| - k
    ensures r.Some? ==> k <= r.value && r.value + |sub| <= |s|
  {
    if k + |sub| > |s| then None
    else if s[k..k + |sub|] == sub then Some(k)
    else IndexFrom(s, sub, k + 1)
  }

  /** IndexFrom finds an occurrence, and there is none between `k` and what it finds;
      when it finds nothing there is none at or after `k`. */
  lemma {:induction false} IndexFromFacts(s: string, sub: string, k: nat)
    decreases |s| - k
    ensures var r := IndexFrom(s, sub, k);
      && (r.Some? ==> OccursAt(s, sub, r.value))
      && (r.Some? ==> forall j :: k <= j < r.value ==> !OccursAt(s, sub, j))
      && (r.None? ==> forall j :: k <= j ==> !OccursAt(s, sub, j))
  {
    if k + |sub| <= |s| && s[k..k + |sub|] != sub {
      IndexFromFacts(s, sub, k + 1);
    }
  }

  function IndexOf(s: string, sub: string): Option<nat> {
    IndexFrom(s, sub, 0)
  }

  /** `s.includes(sub)`. */
  predicate Contains(s: string, sub: string) {
    IndexOf(s, sub).Some?
  }

  lemma ContainsIff(s: string, sub: string)
    ensures Contains(s, sub) <==> exists j :: OccursAt(s, sub, j)
  {
    IndexFromFacts(s, sub, 0);
  }

  lemma ContainsWitness(s: string, sub: string, j: int)
    requires OccursAt(s, sub, j)
    ensures Contains(s, sub)
  {
    IndexFromFacts(s, sub, 0);
  }

  /** A substring of a prefix or suffix is a substring of the whole. */
  lemma ContainsInConcat(a: string, b: string, sub: string)
    ensures Contains(a, sub) ==> Contains(a + b, sub)
    ensures Contains(b, sub) ==> Contains(a + b, sub)
  {
    if Contains(a, sub) {
      ContainsInPrefix(a, b, sub);
    }
    if Contains(b, sub) {
      ContainsInSuffix(a, b, sub);
    }
  }

  lemma ContainsInPrefix(a: string, b: string, sub: string)
    requires Contains(a, sub)
    ensures Contains(a + b, sub)
  {
    IndexFromFacts(a, sub, 0);
    var j := IndexOf(a, sub).value;
    assert (a + b)[j..j + |sub|] == a[j..j + |sub|];
    ContainsWitness(a + b, sub, j);
  }

  lemma ContainsInSuffix(a: string, b: string, sub: string)
    requires Contains(b, sub)
    ensures Contains(a + b, sub)
  {
    IndexFromFacts(b, sub, 0);
    var j := IndexOf(b, sub).value;
    assert (a + b)[|a| + j..|a| + j + |sub|] == b[j..j + |sub|];
    ContainsWitness(a + b, sub, |a| + j);
  }

  /** A pattern holding a character the text lacks does not occur in it. */
  lemma AbsentChar(s: string, sub: string, c: char)
    requires c in sub && c !in s
    ensures !Contains(s, sub)
  {
    IndexFromFacts(s, sub, 0);
    var k :| 0 <= k < |sub| && sub[k] == c;
    forall j | 0 <= j && j + |sub| <= |s| ensures !OccursAt(s, sub, j) {
      assert s[j..j + |sub|][k] == s[j + k] != c;
    }
  }

  /** `words.some(w => s.includes(w))`. */
  predicate ContainsAny(s: string, words: seq<string>) {
    exists k :: 0 <= k < |words| && Contains(s, words[k])
  }

  /** `words.some(w => s.includes(w))`, computed from left to right as `some` does. */
  function AnyMatch(s: string, words: seq<string>): bool {
    if words == [] then false
    else Contains(s, words[0]) || AnyMatch(s, words[1..])
  }

  /** AnyMatch holds exactly when some word occurs. */
  lemma {:induction false} AnyMatchIff(s: string, words: seq<string>)
    ensures AnyMatch(s, words) <==> ContainsAny(s, words)
  {
    if words != [] {
      AnyMatchIff(s, words[1..]);
      assert forall k :: 1 <= k < |words| ==> words[k] == words[1..][k - 1];
    }
  }

  // ---------------------------------------------------------------------------
  // replace (first occurrence), substring, trim
  // ---------------------------------------------------------------------------

  /** `s.replace(pat, rep)` with a string pattern: only the first occurrence is replaced
      (the replacement strings used here hold no `$` patterns). */
  function ReplaceFirst(s: string, pat: string, rep: string): (r: string)
    ensures !Contains(s, pat) ==> r == s
  {
    match IndexOf(s, pat)
    case None => s
    case Some(i) => s[..i] + rep + s[i + |pat|..]
  }

  /** Otherwise the replacement goes where the pattern first occurs. */
  lemma ReplaceFirstAt(s: string, pat: string, rep: string)
    requires Contains(s, pat)
    ensures var i := IndexOf(s, pat).value;
      && OccursAt(s, pat, i)
      && (forall j :: 0 <= j < i ==> !OccursAt(s, pat, j))
      && ReplaceFirst(s, pat, rep) == s[..i] + rep + s[i + |pat|..]
  {
    IndexFromFacts(s, pat, 0);
  }

  /** Replacing a pattern that starts the string swaps that prefix. */
  lemma ReplacePrefix(s: string, pat: string, rep: string)
    requires OccursAt(s, pat, 0)
    ensures ReplaceFirst(s, pat, rep) == rep + s[|pat|..]
  {
    assert IndexOf(s, pat) == Some(0);
  }

  const Ellipsis: string := "..."

  /** The characters that String.prototype.trim removes: white space and line terminators. */
  predicate IsSpace(c: char) {
    || c == ' ' || c == '\t' || c == '\n' || c == '\r' || c == '\U{B}' || c == '\U{C}'
    || c == '\U{A0}' || c == '\U{1680}' || ('\U{2000}' <= c <= '\U{200A}')
    || c == '\U{2028}' || c == '\U{2029}' || c == '\U{202F}' || c == '\U{205F}' || c == '\U{3000}'
    || c == '\U{FEFF}'
  }

  function TrimStart(s: string): (r: string)
    ensures |r| <= |s|
  {
    if s != [] && IsSpace(s[0]) then TrimStart(s[1..]) else s
  }

  /** TrimStart drops exactly the leading white space. */
  lemma {:induction false} TrimStartFacts(s: string)
    ensures var r := TrimStart(s);
      && r == s[|s| - |r|..]
      && (forall i :: 0 <= i < |s| - |r| ==> IsSpace(s[i]))
      && (r != [] ==> !IsSpace(r[0]))
  {
    if s != [] && IsSpace(s[0]) {
      TrimStartFacts(s[1..]);
    }
  }

  function TrimEnd(s: string): (r: string)
    ensures |r| <= |s|
  {
    if s != [] && IsSpace(s[|s| - 1]) then TrimEnd(s[..|s| - 1]) else s
  }

  /** TrimEnd drops exactly the trailing white space. */
  lemma {:induction false} TrimEndFacts(s: string)
    ensures var r := TrimEnd(s);
      && r == s[..|r|]
      && (forall i :: |r| <= i < |s| ==> IsSpace(s[i]))
      && (r != [] ==> !IsSpace(r[|r| - 1]))
  {
    if s != [] && IsSpace(s[|s| - 1]) {
      TrimEndFacts(s[..|s| - 1]);
    }
  }

  /** `r` is the slice of `s` at offset `a` with only white space around it. */
  predicate IsTrimmedSlice(s: string, r: string, a: int) {
    && 0 <= a <= |s| - |r| && r == s[a..a + |r|]
    && (forall i :: 0 <= i < a ==> IsSpace(s[i]))
    && (forall i :: a + |r| <= i < |s| ==> IsSpace(s[i]))
  }

  /** `s.trim()`: the result is the slice of `s` left after removing the white space at
      both ends; it neither starts nor ends with white space. */
  function Trim(s: string): (r: string)
    ensures |r| <= |s|
  {
    TrimEnd(TrimStart(s))
  }

  lemma TrimFacts(s: string)
    ensures exists a :: IsTrimmedSlice(s, Trim(s), a)
    ensures Trim(s) != [] ==> !IsSpace(Trim(s)[0]) && !IsSpace(Trim(s)[|Trim(s)| - 1])
  {
    var t := TrimStart(s);
    var r := TrimEnd(t);
    TrimStartFacts(s);
    TrimEndFacts(t);
    var a := |s| - |t|;
    assert t == s[a..];
    assert r == s[a..a + |r|];
    forall i | a + |r| <= i < |s| ensures IsSpace(s[i]) {
      assert s[i] == t[i - a];
    }
    assert r == Trim(s);
    assert IsTrimmedSlice(s, Trim(s), a);
  }

  /** A string with no white space at either end is its own trim. */
  lemma TrimKeepsTrimmed(s: string)
    requires s != [] ==> !IsSpace(s[0]) && !IsSpace(s[|s| - 1])
    ensures Trim(s) == s
  {
    if s != [] {
      assert !IsSpace(s[0]);
      assert TrimStart(s) == s;
      assert !IsSpace(s[|s| - 1]);
    }
  }

  // ---------------------------------------------------------------------------
  // title.replace('<![CDATA[', '').replace(']]>', '').trim(), in both fetchers
  // ---------------------------------------------------------------------------

  const CdataOpen: string := "<![CDATA["
  const CdataClose: string := "]]>"

  /** The title with the first CDATA opener and the first CDATA closer removed, trimmed. */
  function CleanTitle(t: string): (r: string)
    ensures r != [] ==> !IsSpace(r[0]) && !IsSpace(r[|r| - 1])
  {
    var r := Trim(ReplaceFirst(ReplaceFirst(t, CdataOpen, ""), CdataClose, ""));
    TrimFacts(ReplaceFirst(ReplaceFirst(t, CdataOpen, ""), CdataClose, ""));
    r
  }

  lemma NoCloseBefore(t: string, j: int)
    requires !Contains(t, CdataClose) && 0 <= j < |t|
    ensures !OccursAt(t + CdataClose, CdataClose, j)
  {
    var s := t + CdataClose;
    if j + 3 <= |t| {
      ContainsIff(t, CdataClose);
      assert !OccursAt(t, CdataClose, j);
      assert s[j..j + 3] == t[j..j + 3];
    } else {
      var k := j + 2 - |t|;
      assert 0 <= k < 2;
      assert s[j + 2] == CdataClose[k] == ']';
      assert s[j..j + 3][2] == s[j + 2] != CdataClose[2];
    }
  }

  lemma CloseOnlyAtEnd(t: string)
    requires !Contains(t, CdataClose)
    ensures IndexOf(t + CdataClose, CdataClose) == Some(|t|)
  {
    var s := t + CdataClose;
    forall j | 0 <= j < |t| ensures !OccursAt(s, CdataClose, j) {
      NoCloseBefore(t, j);
    }
    assert s[|t|..] == CdataClose;
    assert s[|t|..|t| + 3] == s[|t|..];
    assert OccursAt(s, CdataClose, |t|);
    IndexFromFacts(s, CdataClose, 0);
  }

  lemma DropOpener(t: string)
    ensures ReplaceFirst(CdataOpen + t, CdataOpen, "") == t
  {
    var s := CdataOpen + t;
    assert s[..|CdataOpen|] == CdataOpen;
    ReplacePrefix(s, CdataOpen, "");
    assert s[|CdataOpen|..] == t;
  }

  lemma DropCloser(t: string)
    requires !Contains(t, CdataClose)
    ensures ReplaceFirst(t + CdataClose, CdataClose, "") == t
  {
    var s := t + CdataClose;
    CloseOnlyAtEnd(t);
    assert s[..|t|] == t;
    assert s[|t| + |CdataClose|..] == [];
  }

  /** Unwrapping is the inverse of wrapping a plain title in a CDATA section. */
  lemma CleanTitleUnwraps(t: string)
    requires !Contains(t, CdataClose)
    requires t != [] ==> !IsSpace(t[0]) && !IsSpace(t[|t| - 1])
    ensures CleanTitle(CdataOpen + t + CdataClose) == t
  {
    assert CdataOpen + t + CdataClose == CdataOpen + (t + CdataClose);
    DropOpener(t + CdataClose);
    DropCloser(t);
    TrimKeepsTrimmed(t);
  }

  // ---------------------------------------------------------------------------
  // s.replace(/<[^>]*>/g, '')
  // ---------------------------------------------------------------------------

  /** Index of the first `c` in `s`, if any. */
  function FirstIndexOf(s: string, c: char): (r: Option<nat>)
    ensures r.Some? ==> r.value < |s| && s[r.value] == c && c !in s[..r.value]
    ensures r.None? ==> c !in s
  {
    if s == [] then None
    else if s[0] == c then Some(0)
    else match FirstIndexOf(s[1..], c)
      case None => None
      case Some(i) => Some(i + 1)
  }

  /** The first `c` in `s` is at `k` when `s[k]` is `c` and no earlier one is. */
  lemma FirstIndexOfIs(s: string, c: char, k: nat)
    requires k < |s| && s[k] == c && c !in s[..k]
    ensures FirstIndexOf(s, c) == Some(k)
  {
    assert s[k] in s;
  }

  /** No '<' in `s` is followed (anywhere later) by a '>', so the tag pattern has no match. */
  predicate TagFree(s: string) {
    forall i :: 0 <= i < |s| && s[i] == '<' ==> '>' !in s[i + 1..]
  }

  lemma TagFreeCons(c: char, t: string)
    requires TagFree(t)
    requires c == '<' ==> '>' !in t
    ensures TagFree([c] + t)
  {
    var r := [c] + t;
    forall i | 0 <= i < |r| && r[i] == '<' ensures '>' !in r[i + 1..] {
      if i == 0 {
        assert r[1..] == t;
      } else {
        var j := i - 1;
        assert r[i] == t[j];
        assert r[i + 1..] == t[j + 1..];
        assert '>' !in t[j + 1..];
      }
    }
  }

  lemma TagFreeTail(s: string)
    requires s != [] && TagFree(s)
    ensures TagFree(s[1..])
  {
    forall i | 0 <= i < |s[1..]| && s[1..][i] == '<' ensures '>' !in s[1..][i + 1..] {
      assert s[1..][i + 1..] == s[i + 2..];
    }
  }

  /** Removes, from left to right, every '<' together with everything up to and including
      the next '>'; a '<' with no '>' after it stays. */
  function StripTags(s: string): (r: string)
    decreases |s|
    ensures |r| <= |s|
    ensures forall c :: c in r ==> c in s
    ensures TagFree(r)
  {
    if s == [] then []
    else if s[0] == '<' && FirstIndexOf(s[1..], '>').Some? then
      var e := FirstIndexOf(s[1..], '>').value + 2;
      var r := StripTags(s[e..]);
      assert forall c :: c in s[e..] ==> c in s;
      r
    else
      var t := StripTags(s[1..]);
      assert forall c :: c in s[1..] ==> c in s;
      TagFreeCons(s[0], t);
      [s[0]] + t
  }

  /** A tag `<…>` at the start is dropped whole. */
  lemma StripTagsDropsLeadingTag(t: string, rest: string)
    requires '>' !in t
    ensures StripTags("<" + t + ">" + rest) == StripTags(rest)
  {
    var s := "<" + t + ">" + rest;
    var u := s[1..];
    assert u == t + ">" + rest;
    assert u[..|t|] == t;
    FirstIndexOfIs(u, '>', |t|);
    assert s[|t| + 2..] == rest;
  }

  /** A character other than '<' at the start is kept. */
  lemma StripTagsKeepsChar(c: char, s: string)
    requires c != '<'
    ensures StripTags([c] + s) == [c] + StripTags(s)
  {
    assert ([c] + s)[1..] == s;
  }

  /** Text without '<' in front of the rest is kept as it is. */
  lemma {:induction false} StripTagsKeepsPlain(p: string, x: string)
    requires '<' !in p
    decreases |p|
    ensures StripTags(p + x) == p + StripTags(x)
  {
    if p == [] {
      assert p + x == x;
    } else {
      assert p + x == [p[0]] + (p[1..] + x);
      StripTagsKeepsChar(p[0], p[1..] + x);
      StripTagsKeepsPlain(p[1..], x);
      assert [p[0]] + (p[1..] + StripTags(x)) == p + StripTags(x);
    }
  }

  /** Text before the first '<' is kept, and a tag `<…>` is dropped whole. */
  lemma StripTagsDropsTag(p: string, t: string, rest: string)
    requires '<' !in p && '>' !in t
    ensures StripTags(p + "<" + t + ">" + rest) == p + StripTags(rest)
  {
    var x := "<" + t + ">" + rest;
    assert p + "<" + t + ">" + rest == p + x;
    StripTagsKeepsPlain(p, x);
    StripTagsDropsLeadingTag(t, rest);
  }

  /** What the stripper keeps is a subsequence of the input: characters are only removed,
      never added or reordered. */
  lemma {:induction false} StripTagsSubsequence(s: string)
    decreases |s|
    ensures Sorting.IsSubsequence(StripTags(s), s)
  {
    if s == [] {
    } else if s[0] == '<' && FirstIndexOf(s[1..], '>').Some? {
      var e := FirstIndexOf(s[1..], '>').value + 2;
      StripTagsSubsequence(s[e..]);
      Sorting.SubsequenceOfSuffix(StripTags(s), s, e);
    } else {
      StripTagsSubsequence(s[1..]);
      var r := StripTags(s);
      assert r[0] == s[0] && r[1..] == StripTags(s[1..]);
    }
  }

  /** Text that holds no complete tag passes through unchanged. */
  lemma {:induction false} StripTagsKeepsTagFree(s: string)
    requires TagFree(s)
    ensures StripTags(s) == s
    decreases |s|
  {
    if s != [] {
      if s[0] == '<' {
        assert s[1..] == s[0 + 1..];
      }
      TagFreeTail(s);
      StripTagsKeepsTagFree(s[1..]);
    }
  }

  lemma StripTagsIdempotent(s: string)
    ensures StripTags(StripTags(s)) == StripTags(s)
  {
    StripTagsKeepsTagFree(StripTags(s));
  }

  // ---------------------------------------------------------------------------
  // content.match(/<img[^>]+src="([^">]+)"/)?.[1]
  // ---------------------------------------------------------------------------

  /** First index at or after `k` holding '>' (or |s|): the end of a `[^>]*` run. */
  function TagRunEnd(s: string, k: nat): (e: nat)
    requires k <= |s|
    decreases |s| - k
    ensures k <= e <= |s|
    ensures forall i :: k <= i < e ==> s[i] != '>'
    ensures e < |s| ==> s[e] == '>'
  {
    if k == |s| || s[k] == '>' then k else TagRunEnd(s, k + 1)
  }

  /** First index at or after `k` holding '"' or '>' (or |s|): the end of a `[^">]*` run. */
  function ValueRunEnd(s: string, k: nat): (e: nat)
    requires k <= |s|
    decreases |s| - k
    ensures k <= e <= |s|
    ensures forall i :: k <= i < e ==> s[i] != '"' && s[i] != '>'
    ensures e < |s| ==> s[e] == '"' || s[e] == '>'
  {
    if k == |s| || s[k] == '"' || s[k] == '>' then k else ValueRunEnd(s, k + 1)
  }

  /** A valid attribute value for the capture group. */
  predicate IsSrcValue(v: string) {
    v != [] && '"' !in v && '>' !in v
  }

  /** The part `src="([^">]+)"` matched at index p, giving the captured value. */
  function SrcAt(s: string, p: nat): Option<string> {
    if OccursAt(s, "src=\"", p) then
      var e := ValueRunEnd(s, p + 5);
      if p + 5 < e < |s| && s[e] == '"' then Some(s[p + 5..e]) else None
    else None
  }

  lemma SrcAtFacts(s: string, p: nat)
    requires SrcAt(s, p).Some?
    ensures IsSrcValue(SrcAt(s, p).value)
    ensures Contains(s, "src=\"" + SrcAt(s, p).value + "\"")
  {
    var e := ValueRunEnd(s, p + 5);
    var v := s[p + 5..e];
    assert s[p..e + 1] == "src=\"" + v + "\"";
    ContainsWitness(s, "src=\"" + v + "\"", p);
  }

  /** Greedy `[^>]+` backtracking: the largest p in [lo, hi) where `src="…"` matches. */
  function LastSrc(s: string, lo: nat, hi: nat): Option<string>
    decreases hi
  {
    if hi <= lo then None
    else if SrcAt(s, hi - 1).Some? then SrcAt(s, hi - 1)
    else LastSrc(s, lo, hi - 1)
  }

  lemma {:induction false} LastSrcFacts(s: string, lo: nat, hi: nat)
    requires LastSrc(s, lo, hi).Some?
    ensures IsSrcValue(LastSrc(s, lo, hi).value)
    ensures Contains(s, "src=\"" + LastSrc(s, lo, hi).value + "\"")
    decreases hi
  {
    if SrcAt(s, hi - 1).Some? {
      SrcAtFacts(s, hi - 1);
    } else {
      LastSrcFacts(s, lo, hi - 1);
    }
  }

  /** The match attempt with `<img` at index i. */
  function ImgAt(s: string, i: nat): Option<string>
    requires OccursAt(s, "<img", i)
  {
    LastSrc(s, i + 5, TagRunEnd(s, i + 4))
  }

  function ImgFrom(s: string, i: nat): Option<string>
    decreases |s| - i
  {
    if i + 4 > |s| then None
    else if OccursAt(s, "<img", i) && ImgAt(s, i).Some? then ImgAt(s, i)
    else ImgFrom(s, i + 1)
  }

  lemma {:induction false} ImgFromFacts(s: string, i: nat)
    requires ImgFrom(s, i).Some?
    ensures IsSrcValue(ImgFrom(s, i).value)
    ensures Contains(s, "src=\"" + ImgFrom(s, i).value + "\"")
    ensures exists j :: i <= j && OccursAt(s, "<img", j)
    decreases |s| - i
  {
    if OccursAt(s, "<img", i) && ImgAt(s, i).Some? {
      LastSrcFacts(s, i + 5, TagRunEnd(s, i + 4));
    } else {
      ImgFromFacts(s, i + 1);
      var j :| i + 1 <= j && OccursAt(s, "<img", j);
    }
  }

  /** The pattern can match with `<img` at `i` and `src="` at `p`: at least one character
      lies between them and none of them is '>', and a quoted value follows. */
  ghost predicate ImgMatchAt(s: string, i: nat, p: nat) {
    && OccursAt(s, "<img", i)
    && i + 5 <= p < TagRunEnd(s, i + 4)
    && SrcAt(s, p).Some?
  }

  /** The match the regular expression engine reports: the leftmost `<img`, and within
      it the last `src="` the greedy `[^>]+` can back off to. */
  ghost predicate FirstImgMatch(s: string, i: nat, p: nat) {
    NoImgMatchBetween(s, 0, i) && LastSrcInTag(s, i, p)
  }

  /** LastSrc finds nothing exactly when no `src="…"` matches in `[lo, hi)`, and otherwise
      the capture at the largest index that matches. */
  lemma {:induction false} LastSrcWhich(s: string, lo: nat, hi: nat)
    decreases hi
    ensures LastSrc(s, lo, hi).None? <==> forall p: nat :: lo <= p < hi ==> SrcAt(s, p).None?
    ensures LastSrc(s, lo, hi).Some? ==>
              exists p: nat :: lo <= p < hi && LastSrc(s, lo, hi) == SrcAt(s, p)
                               && forall q: nat :: p < q < hi ==> SrcAt(s, q).None?
  {
    if hi <= lo {
    } else if SrcAt(s, hi - 1).Some? {
      var p: nat := hi - 1;
      assert lo <= p < hi && LastSrc(s, lo, hi) == SrcAt(s, p);
    } else {
      LastSrcWhich(s, lo, hi - 1);
      assert LastSrc(s, lo, hi) == LastSrc(s, lo, hi - 1);
      if LastSrc(s, lo, hi).Some? {
        var p: nat :| lo <= p < hi - 1 && LastSrc(s, lo, hi - 1) == SrcAt(s, p)
                      && forall q: nat :: p < q < hi - 1 ==> SrcAt(s, q).None?;
        assert forall q: nat :: p < q < hi ==> SrcAt(s, q).None?;
      }
    }
  }

  /** The attempt at one `<img` fails exactly when no `src="` within its tag matches,
      and otherwise gives the capture at the last one that does. */
  lemma ImgAtWhich(s: string, k: nat)
    requires OccursAt(s, "<img", k)
    ensures ImgAt(s, k).None? <==> forall p: nat :: !ImgMatchAt(s, k, p)
    ensures ImgAt(s, k).Some? ==> exists p: nat :: LastSrcInTag(s, k, p) && ImgAt(s, k) == SrcAt(s, p)
  {
    var e := TagRunEnd(s, k + 4);
    LastSrcWhich(s, k + 5, e);
    if ImgAt(s, k).Some? {
      var p: nat :| k + 5 <= p < e && LastSrc(s, k + 5, e) == SrcAt(s, p)
                    && forall q: nat :: p < q < e ==> SrcAt(s, q).None?;
      assert ImgMatchAt(s, k, p);
    }
  }

  /** No `<img` at or after `k` gives a match before index `i`. */
  ghost predicate NoImgMatchBetween(s: string, k: nat, i: nat) {
    forall j: nat, q: nat :: k <= j < i ==> !ImgMatchAt(s, j, q)
  }

  /** `p` is the last `src="` that matches within the tag at `i`. */
  ghost predicate LastSrcInTag(s: string, i: nat, p: nat) {
    ImgMatchAt(s, i, p) && forall q: nat :: p < q ==> !ImgMatchAt(s, i, q)
  }

  /** The scan from `k` fails at `k` itself when no match has its `<img` there. */
  lemma NoImgMatchAtScanPoint(s: string, k: nat)
    requires !(k + 4 <= |s| && OccursAt(s, "<img", k) && ImgAt(s, k).Some?)
    ensures forall p: nat :: !ImgMatchAt(s, k, p)
  {
    if OccursAt(s, "<img", k) {
      ImgAtWhich(s, k);
    }
  }

  /** ImgFrom finds nothing exactly when the pattern has no match with its `<img` at or
      after `k`, and otherwise the capture of the leftmost `<img` and, within it, of the
      last `src="`. */
  lemma {:induction false} ImgFromWhich(s: string, k: nat)
    decreases |s| - k
    ensures ImgFrom(s, k).None? <==> forall i: nat, p: nat :: k <= i ==> !ImgMatchAt(s, i, p)
    ensures ImgFrom(s, k).Some? ==>
              exists i: nat, p: nat :: k <= i && NoImgMatchBetween(s, k, i) && LastSrcInTag(s, i, p)
                                       && ImgFrom(s, k) == SrcAt(s, p)
  {
    if k + 4 > |s| {
      assert forall i: nat :: k <= i ==> !OccursAt(s, "<img", i);
    } else if OccursAt(s, "<img", k) && ImgAt(s, k).Some? {
      ImgAtWhich(s, k);
      var p: nat :| LastSrcInTag(s, k, p) && ImgAt(s, k) == SrcAt(s, p);
      assert NoImgMatchBetween(s, k, k);
    } else {
      NoImgMatchAtScanPoint(s, k);
      ImgFromWhich(s, k + 1);
      assert ImgFrom(s, k) == ImgFrom(s, k + 1);
      if ImgFrom(s, k).Some? {
        var i: nat, p: nat :| k + 1 <= i && NoImgMatchBetween(s, k + 1, i) && LastSrcInTag(s, i, p)
                              && ImgFrom(s, k + 1) == SrcAt(s, p);
        assert NoImgMatchBetween(s, k, i);
      }
    }
  }

  /** The first capture of /<img[^>]+src="([^">]+)"/ in `s`, if the pattern matches. */
  function ImgSrc(s: string): Option<string> {
    ImgFrom(s, 0)
  }

  /** There is a capture exactly when the pattern matches somewhere, and it is the value
      after the `src="` of the reported match: a non-empty value without '"' or '>' that
      appears as `src="value"` in `s`. There is no match unless `s` contains "<img". */
  lemma ImgSrcFacts(s: string)
    ensures ImgSrc(s).None? <==> forall i: nat, p: nat :: !ImgMatchAt(s, i, p)
    ensures ImgSrc(s).Some? ==>
              exists i: nat, p: nat :: FirstImgMatch(s, i, p) && ImgSrc(s) == SrcAt(s, p)
    ensures ImgSrc(s).Some? ==> IsSrcValue(ImgSrc(s).value) && Contains(s, "src=\"" + ImgSrc(s).value + "\"")
    ensures !Contains(s, "<img") ==> ImgSrc(s).None?
  {
    ImgFromWhich(s, 0);
    if ImgSrc(s).Some? {
      var i: nat, p: nat :| NoImgMatchBetween(s, 0, i) && LastSrcInTag(s, i, p) && ImgFrom(s, 0) == SrcAt(s, p);
      assert FirstImgMatch(s, i, p);
      ImgFromFacts(s, 0);
      var j :| 0 <= j && OccursAt(s, "<img", j);
      ContainsWitness(s, "<img", j);
    }
  }

  // ---------------------------------------------------------------------------
  // Decimal rendering of naturals (template literals `${i}`)
  // ---------------------------------------------------------------------------

  function DigitChar(d: nat): (c: char)
    requires d < 10
    ensures '0' <= c <= '9'
  {
    ('0' as int + d) as char
  }

  /** `${n}` for a natural number: decimal digits, no leading zero. */
  function NatToString(n: nat): (r: string)
    decreases n
    ensures r != []
    ensures forall i :: 0 <= i < |r| ==> '0' <= r[i] <= '9'
    ensures |r| > 1 ==> r[0] != '0'
  {
    if n < 10 then [DigitChar(n)] else NatToString(n / 10) + [DigitChar(n % 10)]
  }

  lemma {:induction false} NatToStringInjective(m: nat, n: nat)
    ensures NatToString(m) == NatToString(n) ==> m == n
    decreases m + n
  {
    if NatToString(m) == NatToString(n) {
      var r := NatToString(m);
      if m < 10 && n < 10 {
        assert r == [DigitChar(m)] == [DigitChar(n)];
      } else if m >= 10 && n >= 10 {
        var k := |r| - 1;
        assert r[..k] == NatToString(m / 10) == NatToString(n / 10);
        assert r[k] == DigitChar(m % 10) == DigitChar(n % 10);
        NatToStringInjective(m / 10, n / 10);
      }
    }
  }

  predicate IsDigit(c: char) {
    '0' <= c <= '9'
  }

  /** The length of the run of decimal digits `s` starts with. */
  function LeadingDigits(s: string): (k: nat)
    ensures k <= |s|
  {
    if s == [] || !IsDigit(s[0]) then 0 else 1 + LeadingDigits(s[1..])
  }

  /** The number a string of decimal digits denotes. */
  function DigitsValue(ds: string): nat
    requires forall i :: 0 <= i < |ds| ==> IsDigit(ds[i])
  {
    if ds == [] then 0
    else
      assert IsDigit(ds[|ds| - 1]);
      DigitsValue(ds[..|ds| - 1]) * 10 + (ds[|ds| - 1] as int - '0' as int)
  }

  /** `parseInt(s)` for a string that starts with its digits: the value of the leading
      digit run, None (NaN) when there is none. */
  function ParseInt(s: string): Option<int> {
    LeadingDigitsFacts(s);
    var k := LeadingDigits(s);
    if k == 0 then None else Some(DigitsValue(s[..k]))
  }

  /** The run is made of digits and ends at the end or at a non-digit. */
  lemma {:induction false} LeadingDigitsFacts(s: string)
    ensures forall i :: 0 <= i < LeadingDigits(s) ==> IsDigit(s[i])
    ensures LeadingDigits(s) < |s| ==> !IsDigit(s[LeadingDigits(s)])
  {
    if s != [] && IsDigit(s[0]) {
      LeadingDigitsFacts(s[1..]);
    }
  }

  lemma {:induction false} AllDigitsLead(s: string)
    requires forall i :: 0 <= i < |s| ==> IsDigit(s[i])
    ensures LeadingDigits(s) == |s|
  {
    if s != [] {
      AllDigitsLead(s[1..]);
    }
  }

  lemma {:induction false} DigitsOfNat(n: nat)
    decreases n
    ensures DigitsValue(NatToString(n)) == n
  {
    var r := NatToString(n);
    if n >= 10 {
      DigitsOfNat(n / 10);
      assert r[..|r| - 1] == NatToString(n / 10);
    }
  }

  /** Reading back `${n}` gives `n`. */
  lemma ParseIntRoundTrip(n: nat)
    ensures ParseInt(NatToString(n)) == Some(n)
  {
    var r := NatToString(n);
    AllDigitsLead(r);
    assert r[..|r|] == r;
    DigitsOfNat(n);
  }
}
