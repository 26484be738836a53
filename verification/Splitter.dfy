/** Splitting a migration into statements: on ";" followed by a blank line, but
  * never inside a dollar-quoted block. Text is read as a sequence of bytes.
  */
module Splitter {
  import opened Values

  const SEPARATOR := ";\n\n"

  predicate At(s: string, i: nat, p: string) {
    i + |p| <= |s| && s[i..i + |p|] == p
  }

  // Where p first occurs in s at or after a position.
  function First(s: string, from: nat, p: string): (r: Option<nat>)
    requires from <= |s|
    ensures r.Some? ==> from <= r.value <= |s| && At(s, r.value, p)
    decreases |s| - from
  {
    if At(s, from, p) then Some(from)
    else if from == |s| then None
    else First(s, from + 1, p)
  }

  lemma {:induction false} NoneBeforeFirst(s: string, from: nat, p: string, k: nat)
    requires from <= k && At(s, k, p)
    ensures First(s, from, p).Some? && First(s, from, p).value <= k
    decreases |s| - from
  {
    if !At(s, from, p) {
      NoneBeforeFirst(s, from + 1, p, k);
    }
  }

  /* ---- dollar-quoted blocks, defined on the text alone ---- */

  predicate TagChar(c: char) {
    c == '_' || 'a' <= c <= 'z' || 'A' <= c <= 'Z' || '0' <= c <= '9'
  }

  // A dollar-quote tag of n characters, such as $$ or $body$, starts at i.
  predicate TagAt(s: string, i: nat, n: nat) {
    && 2 <= n && i + n <= |s|
    && s[i] == '$' && s[i + n - 1] == '$'
    && forall j :: i + 1 <= j < i + n - 1 ==> TagChar(s[j])
  }

  // The name of a tag ends where its characters do.
  function NameEnd(s: string, i: nat): (j: nat)
    requires i <= |s|
    ensures i <= j <= |s|
    decreases |s| - i
  {
    if i < |s| && TagChar(s[i]) then NameEnd(s, i + 1) else i
  }

  // The length of the tag that opens at i, 0 when none does.
  function TagLength(s: string, i: nat): (n: nat)
    requires i < |s|
    ensures i + n <= |s|
  {
    var j := NameEnd(s, i + 1);
    if s[i] == '$' && j < |s| && s[j] == '$' then j + 1 - i else 0
  }

  lemma {:induction false} NameEnds(s: string, i: nat, j: nat)
    requires i <= j <= |s| && (j < |s| ==> !TagChar(s[j]))
    requires forall k :: i <= k < j ==> TagChar(s[k])
    ensures NameEnd(s, i) == j
    decreases j - i
  {
    if i < j {
      NameEnds(s, i + 1, j);
    }
  }

  lemma {:induction false} NameHolds(s: string, i: nat)
    requires i <= |s|
    ensures forall k :: i <= k < NameEnd(s, i) ==> TagChar(s[k])
    decreases |s| - i
  {
    if i < |s| && TagChar(s[i]) {
      NameHolds(s, i + 1);
    }
  }

  lemma TagLengthExact(s: string, i: nat, n: nat)
    requires i < |s| && n > 0
    ensures TagAt(s, i, n) <==> TagLength(s, i) == n
  {
    NameHolds(s, i + 1);
    if TagAt(s, i, n) {
      NameEnds(s, i + 1, i + n - 1);
    }
  }

  // Past the tag's next occurrence from i on: an unterminated block runs to the
  // end of the text.
  function BlockEnd(s: string, i: nat, tag: string): (e: nat)
    requires i <= |s|
    ensures i <= e <= |s|
  {
    match First(s, i, tag)
    case Some(k) => k + |tag|
    case None => |s|
  }

  // Past the byte at i or, when a tag opens there, past the whole block.
  function Next(s: string, i: nat): (e: nat)
    requires i < |s|
    ensures i < e <= |s|
  {
    var n := TagLength(s, i);
    if n == 0 then i + 1 else BlockEnd(s, i + n, s[i..i + n])
  }

  datatype Block = Block(begin: nat, end: nat)

  ghost function Blocks(s: string, from: nat): set<Block>
    requires from <= |s|
    decreases |s| - from
  {
    if from == |s| then {}
    else (if TagLength(s, from) > 0 then {Block(from, Next(s, from))} else {}) + Blocks(s, Next(s, from))
  }

  ghost predicate Quoted(s: string, i: nat) {
    exists b :: b in Blocks(s, 0) && b.begin <= i < b.end
  }

  // Where the text is to be cut: ";" and a blank line outside every block.
  ghost function Cuts(s: string): set<nat> {
    set i | 0 <= i < |s| && At(s, i, SEPARATOR) && !Quoted(s, i)
  }

  /* ---- chunks, for any set of cuts ---- */

  // The first cut from i on, before n.
  function NextCut(cuts: set<nat>, i: nat, n: nat): (r: Option<nat>)
    ensures r.Some? ==> i <= r.value < n && r.value in cuts
    decreases n - i
  {
    if i >= n then None
    else if i in cuts then Some(i)
    else NextCut(cuts, i + 1, n)
  }

  lemma {:induction false} NoneBeforeNextCut(cuts: set<nat>, i: nat, n: nat, k: nat)
    requires i <= k < n && k in cuts
    ensures NextCut(cuts, i, n).Some? && NextCut(cuts, i, n).value <= k
    decreases n - i
  {
    if i !in cuts {
      NoneBeforeNextCut(cuts, i + 1, n, k);
    }
  }

  // The text from a chunk's start on, cut after the ";" of every cut.
  function Chunked(s: string, cuts: set<nat>, start: nat): seq<string>
    requires start <= |s|
    decreases |s| - start
  {
    match NextCut(cuts, start, |s|)
    case None => [s[start..]]
    case Some(i) => [s[start..i + 1]] + Chunked(s, cuts, i + 1)
  }

  ghost function Chunks(s: string): seq<string> {
    Chunked(s, Cuts(s), 0)
  }

  function Join(chunks: seq<string>): string {
    if chunks == [] then "" else chunks[0] + Join(chunks[1..])
  }

  // Some chunk other than the last ends just before position e.
  predicate EndsAt(chunks: seq<string>, e: int) {
    |chunks| > 1 && (e == |chunks[0]| || EndsAt(chunks[1..], e - |chunks[0]|))
  }

  lemma {:induction false} ChunksRestoreText(s: string, cuts: set<nat>, start: nat)
    requires start <= |s|
    ensures Join(Chunked(s, cuts, start)) == s[start..]
    decreases |s| - start
  {
    match NextCut(cuts, start, |s|)
    case None =>
      assert Join([s[start..]]) == s[start..] + Join([]);
    case Some(i) =>
      ChunksRestoreText(s, cuts, i + 1);
      var rest := Chunked(s, cuts, i + 1);
      assert ([s[start..i + 1]] + rest)[1..] == rest;
  }

  lemma {:induction false} EndsAreLater(chunks: seq<string>, e: int)
    requires e <= 0 && forall k :: 0 <= k < |chunks| - 1 ==> chunks[k] != ""
    ensures !EndsAt(chunks, e)
  {
    if |chunks| > 1 {
      EndsAreLater(chunks[1..], e - |chunks[0]|);
    }
  }

  lemma {:induction false} ChunksNonEmpty(s: string, cuts: set<nat>, start: nat)
    requires start <= |s|
    ensures var r := Chunked(s, cuts, start); r != [] && forall k :: 0 <= k < |r| - 1 ==> r[k] != ""
    decreases |s| - start
  {
    match NextCut(cuts, start, |s|)
    case None =>
    case Some(i) =>
      ChunksNonEmpty(s, cuts, i + 1);
  }

  lemma EndsAtCons(head: string, rest: seq<string>, e: int)
    requires rest != []
    ensures EndsAt([head] + rest, e) <==> e == |head| || EndsAt(rest, e - |head|)
  {
    assert ([head] + rest)[1..] == rest;
  }

  lemma EndsWithFirstChunk(head: string, rest: seq<string>, start: nat, c: nat, i: nat)
    requires rest != [] && |head| == c + 1 - start && start <= c
    requires forall k :: 0 <= k < |rest| - 1 ==> rest[k] != ""
    ensures EndsAt([head] + rest, i + 1 - start) <==> i == c || (i > c && EndsAt(rest, i - c))
  {
    EndsAtCons(head, rest, i + 1 - start);
    if i <= c {
      EndsAreLater(rest, i - c);
    }
  }

  lemma {:induction false} ChunksEndAtCuts(s: string, cuts: set<nat>, start: nat, i: nat)
    requires start <= i && start <= |s|
    ensures EndsAt(Chunked(s, cuts, start), i + 1 - start) <==> i < |s| && i in cuts
    decreases |s| - start
  {
    if i < |s| && i in cuts {
      NoneBeforeNextCut(cuts, start, |s|, i);
    }
    if NextCut(cuts, start, |s|).Some? {
      var c := NextCut(cuts, start, |s|).value;
      ChunksNonEmpty(s, cuts, c + 1);
      EndsWithFirstChunk(s[start..c + 1], Chunked(s, cuts, c + 1), start, c, i);
      if i > c {
        ChunksEndAtCuts(s, cuts, c + 1, i);
      }
    }
  }

  // A chunk runs from one cut, or the start, to the next, or the end.
  lemma {:induction false} ChunkSpan(s: string, cuts: set<nat>, start: nat, k: nat) returns (a: nat, e: nat)
    requires start <= |s| && k < |Chunked(s, cuts, start)|
    ensures start <= a <= e <= |s| && Chunked(s, cuts, start)[k] == s[a..e]
    ensures a == start || a - 1 in cuts
    ensures match NextCut(cuts, a, |s|) case None => e == |s| case Some(c) => e == c + 1
    decreases |s| - start
  {
    match NextCut(cuts, start, |s|)
    case None =>
      a, e := start, |s|;
    case Some(c) =>
      if k == 0 {
        a, e := start, c + 1;
      } else {
        a, e := ChunkSpan(s, cuts, c + 1, k - 1);
      }
  }

  /* ---- nothing is lost, and a cut falls exactly where it should ---- */

  lemma ChunksRestoreInput(s: string)
    ensures Join(Chunks(s)) == s
  {
    ChunksRestoreText(s, Cuts(s), 0);
  }

  // The text is cut after position i exactly when ";" and a blank line start at i
  // outside every dollar-quoted block.
  lemma CutsAreExact(s: string, i: nat)
    ensures EndsAt(Chunks(s), i + 1) <==> At(s, i, SEPARATOR) && !Quoted(s, i)
  {
    ChunksEndAtCuts(s, Cuts(s), 0, i);
  }

  /* ---- reading from left to right ---- */

  // Where reading goes on from each position.
  function Nexts(s: string): seq<nat> {
    seq(|s|, i requires 0 <= i < |s| => Next(s, i))
  }

  // Reading whole bytes and whole blocks from one position comes to the other.
  predicate Reaches(next: seq<nat>, from: nat, i: nat)
    decreases |next| - from
  {
    from <= i <= |next| && (from == i || (from < next[from] && Reaches(next, next[from], i)))
  }

  lemma {:induction false} ReachesOn(next: seq<nat>, from: nat, a: nat, i: nat)
    requires Reaches(next, from, a) && a <= i
    ensures Reaches(next, from, i) <==> Reaches(next, a, i)
    decreases |next| - from
  {
    if from < a {
      ReachesOn(next, next[from], a, i);
    }
  }

  lemma {:induction false} ReachesEnd(next: seq<nat>, from: nat)
    requires from <= |next| && forall i :: 0 <= i < |next| ==> i < next[i] <= |next|
    ensures Reaches(next, from, |next|)
    decreases |next| - from
  {
    if from < |next| {
      ReachesEnd(next, next[from]);
    }
  }

  lemma ReachesNext(next: seq<nat>, i: nat)
    requires i < |next| && Reaches(next, 0, i) && i < next[i] <= |next|
    ensures Reaches(next, 0, next[i])
  {
    ReachesOn(next, 0, i, next[i]);
  }

  lemma NothingBetween(next: seq<nat>, b: nat, i: nat)
    requires b < |next| && Reaches(next, 0, b) && b < i < next[b]
    ensures !Reaches(next, 0, i)
  {
    ReachesOn(next, 0, b, i);
  }

  lemma {:induction false} BlocksAreAhead(s: string, from: nat, b: Block)
    requires from <= |s| && b in Blocks(s, from)
    ensures from <= b.begin
    decreases |s| - from
  {
    if b in Blocks(s, Next(s, from)) {
      BlocksAreAhead(s, Next(s, from), b);
    }
  }

  ghost predicate Clear(s: string, from: nat, i: nat)
    requires from <= |s|
  {
    forall b :: b in Blocks(s, from) ==> !(b.begin <= i < b.end)
  }

  lemma ClearNext(s: string, from: nat, i: nat)
    requires from < |s| && Next(s, from) <= i
    ensures Clear(s, from, i) <==> Clear(s, Next(s, from), i)
  {
  }

  lemma ClearHere(s: string, from: nat, i: nat)
    requires from <= i < |s| && i < Next(s, from) && s[i] != '$'
    ensures Clear(s, from, i) <==> from == i
  {
    var e := Next(s, from);
    forall b | b in Blocks(s, e)
      ensures i < b.begin
    {
      BlocksAreAhead(s, e, b);
    }
    assert TagLength(s, from) > 0 ==> Block(from, e) in Blocks(s, from);
  }

  lemma {:induction false} ClearIffReached(s: string, from: nat, i: nat)
    requires from <= i < |s| && s[i] != '$'
    ensures Reaches(Nexts(s), from, i) <==> Clear(s, from, i)
    decreases |s| - from
  {
    var e := Next(s, from);
    assert Nexts(s)[from] == e;
    if e <= i {
      ClearIffReached(s, e, i);
      ClearNext(s, from, i);
    } else {
      ClearHere(s, from, i);
    }
  }

  lemma SeparatorHead(s: string, i: nat)
    requires At(s, i, SEPARATOR)
    ensures s[i] == ';' && s[i + 1] == '\n' && s[i + 2] == '\n'
  {
    var t := s[i..i + 3];
    assert t[0] == ';' && t[1] == '\n' && t[2] == '\n';
  }

  lemma CutIffReached(s: string, i: nat)
    ensures i in Cuts(s) <==> At(s, i, SEPARATOR) && Reaches(Nexts(s), 0, i)
  {
    if At(s, i, SEPARATOR) {
      SeparatorHead(s, i);
      ClearIffReached(s, 0, i);
      assert Clear(s, 0, i) <==> !Quoted(s, i);
    }
  }

  // What is left of a text once its blocks are found: where reading goes, and
  // which separators it meets.
  ghost predicate Reading(s: string, next: seq<nat>, cuts: set<nat>) {
    && |next| == |s|
    && (forall i {:trigger next[i]} :: 0 <= i < |s| ==> i < next[i] <= |s|)
    && CutsAt(s, next, cuts)
  }

  ghost predicate CutsAt(s: string, next: seq<nat>, cuts: set<nat>) {
    forall i {:trigger i in cuts} :: i in cuts <==> At(s, i, SEPARATOR) && Reaches(next, 0, i)
  }

  lemma ReadingOf(s: string)
    ensures Reading(s, Nexts(s), Cuts(s))
  {
    forall i: nat {:trigger i in Cuts(s)}
      ensures i in Cuts(s) <==> At(s, i, SEPARATOR) && Reaches(Nexts(s), 0, i)
    {
      CutIffReached(s, i);
    }
  }

  // A separator is read byte by byte.
  predicate ByteSteps(s: string, next: seq<nat>) {
    |next| == |s| && forall i {:trigger next[i]} :: 0 <= i < |s| && s[i] != '$' ==> next[i] == i + 1
  }

  lemma ReachesPastCut(s: string, next: seq<nat>, cuts: set<nat>, c: nat)
    requires Reading(s, next, cuts) && ByteSteps(s, next) && c in cuts
    ensures c < |s| && Reaches(next, 0, c + 1)
  {
    SeparatorHead(s, c);
    ReachesNext(next, c);
  }

  /* ---- splitting a chunk again gives the chunk ---- */

  // c is the part of s that starts at a.
  predicate Window(c: string, s: string, a: nat) {
    a + |c| <= |s| && c == s[a..a + |c|]
  }

  lemma SubWindow(c: string, s: string, a: nat, i: nat, j: nat)
    requires Window(c, s, a) && i <= j <= |c|
    ensures c[i..j] == s[a + i..a + j]
  {
    forall k | 0 <= k < j - i
      ensures c[i..j][k] == s[a + i..a + j][k]
    {
      assert c[i + k] == s[a + i + k];
    }
  }

  lemma AtInWindow(c: string, s: string, a: nat, i: nat, p: string)
    requires Window(c, s, a) && i + |p| <= |c|
    ensures At(c, i, p) == At(s, a + i, p)
  {
    SubWindow(c, s, a, i, i + |p|);
  }

  lemma TagAtInWindow(c: string, s: string, a: nat, i: nat, n: nat)
    requires Window(c, s, a) && i + n <= |c|
    ensures TagAt(c, i, n) <==> TagAt(s, a + i, n)
  {
    SubWindow(c, s, a, i, i + n);
    assert forall j :: i <= j < i + n ==> c[j] == s[a + j];
    assert forall j :: a + i <= j < a + i + n ==> s[j] == c[j - a];
  }

  lemma TagInWindow(c: string, s: string, a: nat, i: nat)
    requires Window(c, s, a) && i < |c| && i + TagLength(s, a + i) <= |c|
    ensures TagLength(c, i) == TagLength(s, a + i)
  {
    var n := TagLength(s, a + i);
    var k := TagLength(c, i);
    if n > 0 {
      TagLengthExact(s, a + i, n);
      TagAtInWindow(c, s, a, i, n);
      TagLengthExact(c, i, n);
    } else if k > 0 {
      TagLengthExact(c, i, k);
      TagAtInWindow(c, s, a, i, k);
      TagLengthExact(s, a + i, k);
    }
  }

  lemma {:induction false} FirstInWindow(c: string, s: string, a: nat, from: nat, p: string)
    requires Window(c, s, a) && from <= |c|
    requires match First(s, a + from, p) case Some(k) => k + |p| <= a + |c| case None => a + |c| == |s|
    ensures First(s, a + from, p) == match First(c, from, p) case Some(k) => Some(a + k) case None => None
    decreases |c| - from
  {
    if from + |p| <= |c| {
      AtInWindow(c, s, a, from, p);
    }
    if !At(s, a + from, p) && from < |c| {
      FirstInWindow(c, s, a, from + 1, p);
    }
  }

  lemma BlockEndInWindow(c: string, s: string, a: nat, i: nat, tag: string)
    requires Window(c, s, a) && i <= |c| && BlockEnd(s, a + i, tag) <= a + |c|
    ensures BlockEnd(s, a + i, tag) == a + BlockEnd(c, i, tag)
  {
    FirstInWindow(c, s, a, i, tag);
  }

  lemma BlockInWindow(c: string, s: string, a: nat, i: nat, j: nat)
    requires Window(c, s, a) && i <= j <= |c| && BlockEnd(s, a + j, s[a + i..a + j]) <= a + |c|
    ensures BlockEnd(s, a + j, s[a + i..a + j]) == a + BlockEnd(c, j, c[i..j])
  {
    SubWindow(c, s, a, i, j);
    BlockEndInWindow(c, s, a, j, c[i..j]);
  }

  lemma NextCoversTag(s: string, i: nat)
    requires i < |s|
    ensures i + TagLength(s, i) <= Next(s, i)
  {
  }

  lemma NextPastBlock(s: string, i: nat, n: nat)
    requires i < |s| && TagLength(s, i) == n && n > 0
    ensures i + n <= |s| && Next(s, i) == BlockEnd(s, i + n, s[i..i + n])
  {
  }

  lemma ByteInWindow(c: string, s: string, a: nat, i: nat)
    requires Window(c, s, a) && i < |c| && TagLength(s, a + i) == 0
    ensures Next(c, i) == i + 1 && Next(s, a + i) == a + i + 1
  {
    assert TagLength(c, i) == 0 by {
      TagInWindow(c, s, a, i);
    }
  }

  lemma TagStaysInWindow(c: string, s: string, a: nat, i: nat, n: nat)
    requires Window(c, s, a) && i < |c| && TagLength(s, a + i) == n && Next(s, a + i) <= a + |c|
    ensures i + n <= |c| && TagLength(c, i) == n
  {
    NextCoversTag(s, a + i);
    TagInWindow(c, s, a, i);
  }

  lemma BlockNextInWindow(c: string, s: string, a: nat, i: nat, j: nat, e: nat)
    requires Window(c, s, a) && i < j <= |c| && TagLength(c, i) == j - i
    requires e == BlockEnd(s, a + j, s[a + i..a + j]) && e <= a + |c|
    ensures e == a + Next(c, i)
  {
    BlockInWindow(c, s, a, i, j);
    NextPastBlock(c, i, j - i);
  }

  lemma NextInWindow(c: string, s: string, a: nat, i: nat)
    requires Window(c, s, a) && i < |c| && Next(s, a + i) <= a + |c|
    ensures Next(s, a + i) == a + Next(c, i)
  {
    var n, e := TagLength(s, a + i), Next(s, a + i);
    if n == 0 {
      ByteInWindow(c, s, a, i);
    } else {
      TagStaysInWindow(c, s, a, i, n);
      var j := i + n;
      assert e == BlockEnd(s, a + j, s[a + i..a + j]) by {
        NextPastBlock(s, a + i, n);
        assert a + i + n == a + j;
      }
      BlockNextInWindow(c, s, a, i, j, e);
    }
  }

  // Reading goes the same way in both, as far as it stays within the first.
  predicate SameReading(inner: seq<nat>, next: seq<nat>, a: nat) {
    && a + |inner| <= |next|
    && forall i {:trigger inner[i]} :: 0 <= i < |inner| && next[a + i] <= a + |inner| ==> a + inner[i] == next[a + i]
  }

  lemma WindowReadsTheSame(c: string, s: string, a: nat)
    requires Window(c, s, a)
    ensures SameReading(Nexts(c), Nexts(s), a)
  {
    var inner, next := Nexts(c), Nexts(s);
    forall i {:trigger inner[i]} | 0 <= i < |inner| && next[a + i] <= a + |inner|
      ensures a + inner[i] == next[a + i]
    {
      NextInWindow(c, s, a, i);
    }
  }

  lemma {:induction false} ReachesInWindow(inner: seq<nat>, next: seq<nat>, a: nat, from: nat, i: nat)
    requires SameReading(inner, next, a) && from <= i <= |inner| && Reaches(next, a + from, a + |inner|)
    ensures Reaches(inner, from, i) == Reaches(next, a + from, a + i)
    decreases |inner| - from
  {
    if from < i {
      assert a + inner[from] == next[a + from];
      if inner[from] <= i {
        ReachesInWindow(inner, next, a, inner[from], i);
      }
    }
  }

  lemma ReachedInWindow(inner: seq<nat>, next: seq<nat>, a: nat, i: nat)
    requires SameReading(inner, next, a) && Reaches(next, 0, a) && Reaches(next, a, a + |inner|)
    requires Reaches(inner, 0, i)
    ensures Reaches(next, 0, a + i)
  {
    assert a + 0 == a;
    ReachesInWindow(inner, next, a, 0, i);
    ReachesOn(next, 0, a, a + i);
  }

  // Every place reading comes to within the window, it comes to in the text.
  predicate ReadWithin(inner: seq<nat>, next: seq<nat>, a: nat) {
    forall i {:trigger Reaches(inner, 0, i)} :: 0 <= i <= |inner| && Reaches(inner, 0, i) ==> Reaches(next, 0, a + i)
  }

  lemma ReachedWithin(inner: seq<nat>, next: seq<nat>, a: nat)
    requires SameReading(inner, next, a) && Reaches(next, 0, a) && Reaches(next, a, a + |inner|)
    ensures ReadWithin(inner, next, a)
  {
    forall i | 0 <= i <= |inner| && Reaches(inner, 0, i)
      ensures Reaches(next, 0, a + i)
    {
      ReachedInWindow(inner, next, a, i);
    }
  }

  lemma CutInWindow(c: string, inner: seq<nat>, cuts': set<nat>, s: string, next: seq<nat>, cuts: set<nat>,
                    a: nat, i: nat)
    requires Window(c, s, a) && ReadWithin(inner, next, a) && |inner| == |c|
    requires CutsAt(c, inner, cuts') && CutsAt(s, next, cuts) && i in cuts'
    ensures i + 3 <= |c| && a + i in cuts
  {
    AtInWindow(c, s, a, i, SEPARATOR);
  }

  // Every cut of the window is one of the text, its separator within the window.
  predicate CutsWithin(cuts': set<nat>, n: nat, cuts: set<nat>, a: nat) {
    forall i :: i in cuts' ==> i + 3 <= n && a + i in cuts
  }

  lemma CutsInWindow(c: string, inner: seq<nat>, cuts': set<nat>, s: string, next: seq<nat>, cuts: set<nat>, a: nat)
    requires Window(c, s, a) && ReadWithin(inner, next, a) && |inner| == |c|
    requires CutsAt(c, inner, cuts') && CutsAt(s, next, cuts)
    ensures CutsWithin(cuts', |c|, cuts, a)
  {
    forall i | i in cuts'
      ensures i + 3 <= |c| && a + i in cuts
    {
      CutInWindow(c, inner, cuts', s, next, cuts, a, i);
    }
  }

  lemma WindowHasNoCut(cuts': set<nat>, m: nat, cuts: set<nat>, a: nat, n: nat)
    requires CutsWithin(cuts', m, cuts, a) && a + m <= n
    requires match NextCut(cuts, a, n) case None => true case Some(e) => a + m == e + 1
    ensures NextCut(cuts', 0, m).None?
  {
    if NextCut(cuts', 0, m).Some? {
      NoneBeforeNextCut(cuts, a, n, a + NextCut(cuts', 0, m).value);
    }
  }

  lemma SpanIsReached(s: string, next: seq<nat>, cuts: set<nat>, a: nat, e: nat)
    requires Reading(s, next, cuts) && ByteSteps(s, next)
    requires a <= e <= |s| && (a == 0 || a - 1 in cuts) && (e == |s| || (e > 0 && e - 1 in cuts))
    ensures Reaches(next, 0, a) && Reaches(next, a, e)
  {
    if a > 0 {
      ReachesPastCut(s, next, cuts, a - 1);
    }
    if e == |s| {
      ReachesEnd(next, a);
    } else {
      ReachesPastCut(s, next, cuts, e - 1);
      ReachesOn(next, 0, a, e);
    }
  }

  lemma UncutIsWhole(c: string, cuts: set<nat>)
    requires NextCut(cuts, 0, |c|).None?
    ensures Chunked(c, cuts, 0) == [c]
  {
    assert c[0..] == c;
  }

  lemma ByteStepsOf(s: string)
    ensures ByteSteps(s, Nexts(s))
  {
  }

  ghost predicate ReadAsWindow(c: string, inner: seq<nat>, cuts': set<nat>, s: string, next: seq<nat>, cuts: set<nat>,
                               a: nat)
  {
    && Window(c, s, a)
    && Reading(c, inner, cuts')
    && Reading(s, next, cuts) && ByteSteps(s, next)
    && SameReading(inner, next, a)
  }

  lemma WindowIsReadAsWindow(c: string, s: string, a: nat)
    requires Window(c, s, a)
    ensures ReadAsWindow(c, Nexts(c), Cuts(c), s, Nexts(s), Cuts(s), a)
  {
    ReadingOf(s);
    ReadingOf(c);
    ByteStepsOf(s);
    WindowReadsTheSame(c, s, a);
  }

  lemma SpanHasNoCut(c: string, inner: seq<nat>, cuts': set<nat>, s: string, next: seq<nat>, cuts: set<nat>, a: nat)
    requires ReadAsWindow(c, inner, cuts', s, next, cuts, a)
    requires a == 0 || a - 1 in cuts
    requires match NextCut(cuts, a, |s|) case None => a + |c| == |s| case Some(e) => a + |c| == e + 1
    ensures NextCut(cuts', 0, |c|).None?
  {
    SpanIsReached(s, next, cuts, a, a + |c|);
    ReachedWithin(inner, next, a);
    CutsInWindow(c, inner, cuts', s, next, cuts, a);
    WindowHasNoCut(cuts', |c|, cuts, a, |s|);
  }

  lemma ResplittingChangesNothing(s: string, k: nat)
    requires k < |Chunks(s)|
    ensures Chunks(Chunks(s)[k]) == [Chunks(s)[k]]
  {
    var a, e := ChunkSpan(s, Cuts(s), 0, k);
    var c := s[a..e];
    WindowIsReadAsWindow(c, s, a);
    SpanHasNoCut(c, Nexts(c), Cuts(c), s, Nexts(s), Cuts(s), a);
    UncutIsWhole(c, Cuts(c));
  }

  /* ---- without a dollar sign this is the plain split ---- */

  // Split on every separator, as the standard library does, dropping it.
  function PlainSplit(s: string, from: nat): (parts: seq<string>)
    requires from <= |s|
    ensures parts != []
    decreases |s| - from
  {
    match First(s, from, SEPARATOR)
    case None => [s[from..]]
    case Some(k) => [s[from..k]] + PlainSplit(s, k + |SEPARATOR|)
  }

  // Put ";" back at the end of each part but the last, and the blank line at the
  // start of each but the first.
  function Restored(parts: seq<string>, first: bool): seq<string> {
    if parts == [] then []
    else
      var head := if first then parts[0] else "\n\n" + parts[0];
      if |parts| == 1 then [head] else [head + ";"] + Restored(parts[1..], false)
  }

  predicate NoDollar(s: string) {
    forall i :: 0 <= i < |s| ==> s[i] != '$'
  }

  lemma {:induction false} AllReached(next: seq<nat>, from: nat, i: nat)
    requires from <= i <= |next| && forall j :: 0 <= j < |next| ==> next[j] == j + 1
    ensures Reaches(next, from, i)
    decreases i - from
  {
    if from < i {
      AllReached(next, from + 1, i);
    }
  }

  lemma {:induction false} PlainCut(s: string, next: seq<nat>, cuts: set<nat>, start: nat)
    requires NoDollar(s) && Reading(s, next, cuts) && ByteSteps(s, next) && start <= |s|
    ensures NextCut(cuts, start, |s|) == First(s, start, SEPARATOR)
    decreases |s| - start
  {
    if start < |s| {
      AllReached(next, 0, start);
      if start !in cuts {
        PlainCut(s, next, cuts, start + 1);
      }
    }
  }

  // No separator starts in the blank line a cut leaves in front.
  lemma SkipBlankLine(s: string, from: nat)
    requires 2 <= from <= |s| && s[from - 2] == '\n' && s[from - 1] == '\n'
    ensures First(s, from - 2, SEPARATOR) == First(s, from, SEPARATOR)
  {
    assert First(s, from - 1, SEPARATOR) == First(s, from, SEPARATOR) by {
      if At(s, from - 1, SEPARATOR) {
        SeparatorHead(s, from - 1);
      }
    }
    if At(s, from - 2, SEPARATOR) {
      SeparatorHead(s, from - 2);
    }
  }

  lemma RestoredCons(head: string, rest: seq<string>, first: bool)
    requires rest != []
    ensures Restored([head] + rest, first) ==
            [(if first then head else "\n\n" + head) + ";"] + Restored(rest, false)
  {
    assert ([head] + rest)[1..] == rest;
  }

  // The chunk that starts at `start` holds the plain part that starts at `from`.
  predicate Aligned(s: string, start: nat, from: nat, first: bool) {
    && start <= from <= |s|
    && if first then start == from else start + 2 == from && s[start] == '\n' && s[start + 1] == '\n'
  }

  lemma AlignedCut(s: string, next: seq<nat>, cuts: set<nat>, start: nat, from: nat, first: bool)
    requires NoDollar(s) && Reading(s, next, cuts) && ByteSteps(s, next) && Aligned(s, start, from, first)
    ensures NextCut(cuts, start, |s|) == First(s, from, SEPARATOR)
    ensures s[start..from] == if first then "" else "\n\n"
  {
    PlainCut(s, next, cuts, start);
    if !first {
      SkipBlankLine(s, from);
    }
  }

  lemma PlainLast(s: string, cuts: set<nat>, start: nat, from: nat, first: bool)
    requires start <= from <= |s| && NextCut(cuts, start, |s|).None? && First(s, from, SEPARATOR).None?
    requires s[start..from] == if first then "" else "\n\n"
    ensures Chunked(s, cuts, start) == Restored(PlainSplit(s, from), first)
  {
    assert s[start..] == s[start..from] + s[from..];
    assert PlainSplit(s, from) == [s[from..]];
  }

  lemma PlainNext(s: string, start: nat, from: nat, k: nat, first: bool, rest: seq<string>, chunks: seq<string>)
    requires start <= from <= k && k + 3 <= |s| && s[k] == ';'
    requires s[start..from] == if first then "" else "\n\n"
    requires rest != [] && chunks == Restored(rest, false)
    ensures [s[start..k + 1]] + chunks == Restored([s[from..k]] + rest, first)
  {
    var head := if first then s[from..k] else "\n\n" + s[from..k];
    assert s[start..k + 1] == s[start..from] + s[from..k] + s[k..k + 1];
    assert s[k..k + 1] == ";";
    assert s[start..k + 1] == head + ";";
    RestoredCons(s[from..k], rest, first);
  }

  lemma PlainSplitNext(s: string, from: nat, k: nat)
    requires from <= |s| && First(s, from, SEPARATOR) == Some(k)
    ensures PlainSplit(s, from) == [s[from..k]] + PlainSplit(s, k + 3)
  {
  }

  lemma ChunkedCut(s: string, cuts: set<nat>, start: nat, k: nat)
    requires start <= |s| && NextCut(cuts, start, |s|) == Some(k)
    ensures Chunked(s, cuts, start) == [s[start..k + 1]] + Chunked(s, cuts, k + 1)
  {
  }

  lemma {:induction false} PlainSplitFrom(s: string, next: seq<nat>, cuts: set<nat>, start: nat, from: nat, first: bool)
    requires NoDollar(s) && Reading(s, next, cuts) && ByteSteps(s, next) && Aligned(s, start, from, first)
    ensures Chunked(s, cuts, start) == Restored(PlainSplit(s, from), first)
    decreases |s| - from
  {
    AlignedCut(s, next, cuts, start, from, first);
    var r := First(s, from, SEPARATOR);
    if r.None? {
      PlainLast(s, cuts, start, from, first);
    } else {
      var k := r.value;
      SeparatorHead(s, k);
      PlainSplitFrom(s, next, cuts, k + 1, k + 3, false);
      PlainSplitNext(s, from, k);
      ChunkedCut(s, cuts, start, k);
      PlainNext(s, start, from, k, first, PlainSplit(s, k + 3), Chunked(s, cuts, k + 1));
    }
  }

  lemma PlainSplitRestored(s: string)
    requires NoDollar(s)
    ensures Chunks(s) == Restored(PlainSplit(s, 0), true)
  {
    ReadingOf(s);
    ByteStepsOf(s);
    PlainSplitFrom(s, Nexts(s), Cuts(s), 0, 0, true);
  }

  /* ---- the scanner ---- */

  method DollarTagAt(s: string) returns (t: string)
    ensures s != "" && s[0] == '$' ==> t == s[..TagLength(s, 0)]
    ensures t != "" ==> 2 <= |t| <= |s| && t == s[..|t|] && t[|t| - 1] == '$'
  {
    var j := 1;
    while j < |s| && TagChar(s[j])
      invariant 1 <= j && (j <= |s| || s == "")
      invariant s != "" ==> NameEnd(s, j) == NameEnd(s, 1)
    {
      j := j + 1;
    }
    if j < |s| && s[j] == '$' {
      return s[..j + 1];
    }
    return "";
  }

  lemma HeadMatches(s: string, i: nat, p: string)
    requires i < |s| && p != ""
    ensures At(s, i, p) ==> s[i] == p[0]
  {
    assert At(s, i, p) ==> s[i] == s[i..i + |p|][0];
  }

  lemma TagInRest(sql: string, i: nat)
    requires i < |sql|
    ensures var n := TagLength(sql, i); TagLength(sql[i..], 0) == n && sql[i..][..n] == sql[i..i + n]
  {
    TagInWindow(sql[i..], sql, i, 0);
  }

  // What the scanner produces from position i on, when the chunk at hand began
  // at start and tag is the open tag, empty outside a block.
  function Scan(sql: string, start: nat, i: nat, tag: string): seq<string>
    requires start <= i <= |sql|
    decreases |sql| - i
  {
    if i == |sql| then [sql[start..]]
    else if tag != "" then
      if At(sql, i, tag) then Scan(sql, start, i + |tag|, "") else Scan(sql, start, i + 1, tag)
    else
      var n := TagLength(sql, i);
      if n > 0 then Scan(sql, start, i + n, sql[i..i + n])
      else if At(sql, i, SEPARATOR) then [sql[start..i + 1]] + Scan(sql, i + 1, i + 1, "")
      else Scan(sql, start, i + 1, "")
  }

  lemma BlockEndSteps(sql: string, i: nat, tag: string)
    requires i <= |sql| && tag != ""
    ensures BlockEnd(sql, i, tag) ==
            if i == |sql| then i else if At(sql, i, tag) then i + |tag| else BlockEnd(sql, i + 1, tag)
  {
  }

  lemma {:induction false} ScanToBlockEnd(sql: string, start: nat, i: nat, tag: string)
    requires start <= i <= |sql| && tag != ""
    ensures Scan(sql, start, i, tag) == Scan(sql, start, BlockEnd(sql, i, tag), "")
    decreases |sql| - i
  {
    BlockEndSteps(sql, i, tag);
    if i < |sql| && !At(sql, i, tag) {
      ScanToBlockEnd(sql, start, i + 1, tag);
    }
  }

  lemma NoSeparatorAtTag(sql: string, i: nat)
    requires i < |sql| && TagLength(sql, i) > 0
    ensures !At(sql, i, SEPARATOR)
  {
    if At(sql, i, SEPARATOR) {
      SeparatorHead(sql, i);
    }
  }

  lemma ScanNext(sql: string, start: nat, i: nat)
    requires start <= i < |sql|
    ensures Scan(sql, start, i, "") ==
            if At(sql, i, SEPARATOR) then [sql[start..i + 1]] + Scan(sql, i + 1, i + 1, "")
            else Scan(sql, start, Next(sql, i), "")
  {
    var n := TagLength(sql, i);
    if n > 0 {
      NoSeparatorAtTag(sql, i);
      ScanToBlockEnd(sql, start, i + n, sql[i..i + n]);
    }
  }

  lemma {:induction false} NoCutAhead(cuts: set<nat>, i: nat, e: nat, n: nat)
    requires i <= e <= n && forall j :: i <= j < e ==> j !in cuts
    ensures NextCut(cuts, i, n) == NextCut(cuts, e, n)
    decreases e - i
  {
    if i < e {
      NoCutAhead(cuts, i + 1, e, n);
    }
  }

  lemma NextCutFrom(s: string, next: seq<nat>, cuts: set<nat>, i: nat)
    requires Reading(s, next, cuts) && i < |s| && Reaches(next, 0, i)
    ensures NextCut(cuts, i, |s|) == if At(s, i, SEPARATOR) then Some(i) else NextCut(cuts, next[i], |s|)
  {
    if !At(s, i, SEPARATOR) {
      forall j | i <= j < next[i]
        ensures j !in cuts
      {
        if i < j {
          NothingBetween(next, i, j);
        }
      }
      NoCutAhead(cuts, i, next[i], |s|);
    }
  }

  lemma SeparatorIsOneByte(sql: string, i: nat)
    requires At(sql, i, SEPARATOR)
    ensures Next(sql, i) == i + 1
  {
    SeparatorHead(sql, i);
  }

  // One step of reading, on either side.
  lemma ChunkedNext(s: string, cuts: set<nat>, start: nat, i: nat, e: nat, cut: bool)
    requires start <= i < e <= |s| && (cut ==> e == i + 1)
    requires NextCut(cuts, start, |s|) == if cut then Some(i) else NextCut(cuts, e, |s|)
    ensures cut ==> Chunked(s, cuts, start) == [s[start..i + 1]] + Chunked(s, cuts, e)
  {
  }

  lemma {:induction false} ScanIsChunked(s: string, next: seq<nat>, cuts: set<nat>, start: nat, i: nat)
    requires Reading(s, next, cuts) && forall k {:trigger Next(s, k)} :: 0 <= k < |s| ==> next[k] == Next(s, k)
    requires start <= i <= |s| && Reaches(next, 0, i) && NextCut(cuts, start, |s|) == NextCut(cuts, i, |s|)
    ensures Scan(s, start, i, "") == Chunked(s, cuts, start)
    decreases |s| - i
  {
    if i < |s| {
      var e, cut := next[i], At(s, i, SEPARATOR);
      assert e == Next(s, i);
      assert cut ==> e == i + 1 by {
        if cut {
          SeparatorIsOneByte(s, i);
        }
      }
      ReachesNext(next, i);
      NextCutFrom(s, next, cuts, i);
      ScanIsChunked(s, next, cuts, if cut then e else start, e);
      ChunkedNext(s, cuts, start, i, e, cut);
      ScanNext(s, start, i);
    }
  }

  lemma ScannerIsExact(s: string)
    ensures Scan(s, 0, 0, "") == Chunks(s)
  {
    ReadingOf(s);
    ScanIsChunked(s, Nexts(s), Cuts(s), 0, 0);
  }

  // The tag that opens at i, empty when none does.
  method OpeningAt(sql: string, i: nat) returns (t: string)
    requires i < |sql|
    ensures t == sql[i..i + TagLength(sql, i)]
    ensures t != "" ==> t[0] == '$'
  {
    t := "";
    if sql[i] == '$' {
      TagInRest(sql, i);
      t := DollarTagAt(sql[i..]);
    }
  }

  method SplitStatements(sql: string) returns (out: seq<string>)
    ensures out == Chunks(sql)
  {
    out := [];
    var start := 0;
    var tag := "";
    var i := 0;
    while i < |sql|
      invariant start <= i <= |sql|
      invariant tag != "" ==> tag[0] == '$'
      invariant out + Scan(sql, start, i, tag) == Scan(sql, 0, 0, "")
    {
      if tag != "" {
        HeadMatches(sql, i, tag);
        if sql[i] == '$' && At(sql, i, tag) {
          i := i + |tag|;
          tag := "";
        } else {
          i := i + 1;
        }
        continue;
      }
      var t := OpeningAt(sql, i);
      if t != "" {
        tag := t;
        i := i + |t|;
        continue;
      }
      HeadMatches(sql, i, SEPARATOR);
      if sql[i] == ';' && At(sql, i, SEPARATOR) {
        assert out + Scan(sql, start, i, "") == (out + [sql[start..i + 1]]) + Scan(sql, i + 1, i + 1, "");
        out := out + [sql[start..i + 1]];
        start := i + 1;
      }
      i := i + 1;
    }
    out := out + [sql[start..]];
    ScannerIsExact(sql);
  }
}
