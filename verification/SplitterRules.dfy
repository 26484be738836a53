/** Where a migration is cut and what a dollar-quoted block is, said in characters. */
module SplitterRules {
  import opened Values
  import opened Splitter

  predicate NameCharacter(c: char) {
    c == '_' || 'a' <= c <= 'z' || 'A' <= c <= 'Z' || '0' <= c <= '9'
  }

  // From the dollar at i to the next one there are only name characters.
  predicate Tag(s: string, i: int, n: int) {
    && 0 <= i && 2 <= n && i + n <= |s| && s[i] == '$' && s[i + n - 1] == '$'
    && forall j :: i < j < i + n - 1 ==> NameCharacter(s[j])
  }

  predicate Occurs(s: string, k: int, t: string) {
    0 <= k && k + |t| <= |s| && s[k..k + |t|] == t
  }

  // From `from` on, the end of the first t, or the end of the text if there is none.
  ghost predicate FirstEnd(s: string, from: int, t: string, e: int) {
    if forall k :: from <= k ==> !Occurs(s, k, t) then e == |s|
    else
      && from <= e - |t| && Occurs(s, e - |t|, t)
      && forall k :: from <= k < e - |t| ==> !Occurs(s, k, t)
  }

  // The text from b.begin to b.end opens with a tag of n characters and goes up to
  // where it next occurs, or to the end of the text when it does not.
  ghost predicate Encloses(s: string, b: Block, n: int) {
    Tag(s, b.begin, n) && FirstEnd(s, b.begin + n, s[b.begin..b.begin + n], b.end)
  }

  ghost predicate TagBlock(s: string, b: Block) {
    exists n :: Encloses(s, b, n)
  }

  ghost predicate InsideOther(blocks: set<Block>, b: Block) {
    exists c :: c in blocks && c.begin < b.begin < c.end
  }

  lemma TagIsFound(s: string, i: nat, n: nat)
    requires i < |s| && n > 0
    ensures Tag(s, i, n) <==> TagLength(s, i) == n
  {
    TagLengthExact(s, i, n);
    assert Tag(s, i, n) <==> TagAt(s, i, n);
  }

  lemma FirstIsFirst(s: string, from: nat, t: string, e: nat)
    requires from <= |s|
    ensures FirstEnd(s, from, t, e) <==> BlockEnd(s, from, t) == e
  {
    var r := First(s, from, t);
    forall j | from <= j && Occurs(s, j, t)
      ensures r.Some? && r.value <= j
    {
      NoneBeforeFirst(s, from, t, j);
    }
    assert r.Some? ==> from <= r.value && Occurs(s, r.value, t);
  }

  // What a tag encloses ends where reading goes on.
  lemma EnclosedIsNext(s: string, b: Block, n: nat)
    requires b.begin < |s| && n > 0 && TagLength(s, b.begin) == n
    ensures Encloses(s, b, n) <==> b.end == Next(s, b.begin)
  {
    TagIsFound(s, b.begin, n);
    FirstIsFirst(s, b.begin + n, s[b.begin..b.begin + n], b.end);
  }

  lemma BlockHere(s: string, b: Block)
    requires b.begin < |s|
    ensures TagBlock(s, b) <==> TagLength(s, b.begin) > 0 && b.end == Next(s, b.begin)
  {
    if TagLength(s, b.begin) > 0 {
      EnclosedIsNext(s, b, TagLength(s, b.begin));
    }
    if TagBlock(s, b) {
      var n :| Encloses(s, b, n);
      TagIsFound(s, b.begin, n);
      EnclosedIsNext(s, b, n);
    }
  }

  lemma {:induction false} BlocksFrom(s: string, from: nat, b: Block)
    requires from <= |s|
    ensures b in Blocks(s, from) <==>
            from <= b.begin && TagBlock(s, b) && !InsideOther(Blocks(s, from), b)
    decreases |s| - from
  {
    if from == |s| {
      return;
    }
    var e := Next(s, from);
    BlocksFrom(s, e, b);
    if b.begin < |s| {
      BlockHere(s, b);
    }
    LaterBlocks(s, from, b);
  }

  // The block at `from`, if there is one, and those after it.
  lemma LaterBlocks(s: string, from: nat, b: Block)
    requires from < |s|
    ensures b.begin == from ==> !InsideOther(Blocks(s, from), b) && b !in Blocks(s, Next(s, from))
    ensures b.begin >= Next(s, from) ==>
              (InsideOther(Blocks(s, from), b) <==> InsideOther(Blocks(s, Next(s, from)), b))
    ensures from < b.begin < Next(s, from) ==>
              InsideOther(Blocks(s, from), b) && b !in Blocks(s, Next(s, from))
  {
    var e := Next(s, from);
    forall c | c in Blocks(s, e) ensures e <= c.begin {
      BlocksAreAhead(s, e, c);
    }
    if from < b.begin < e {
      assert Block(from, e) in Blocks(s, from);
    }
  }

  // The blocks are the spans a tag encloses that start in no other block.
  lemma BlocksAreExact(s: string, b: Block)
    ensures b in Blocks(s, 0) <==> TagBlock(s, b) && !InsideOther(Blocks(s, 0), b)
  {
    BlocksFrom(s, 0, b);
  }

  // The text is cut behind a semicolon that two line feeds follow, unless it stands
  // in a block.
  lemma CutsAreWritten(s: string, i: nat)
    ensures EndsAt(Chunks(s), i + 1) <==>
            && i + 2 < |s| && s[i] == ';' && s[i + 1] == '\n' && s[i + 2] == '\n'
            && !(exists b :: b in Blocks(s, 0) && b.begin <= i < b.end)
  {
    CutsAreExact(s, i);
    if At(s, i, SEPARATOR) {
      assert s[i] == SEPARATOR[0] && s[i + 1] == SEPARATOR[1] && s[i + 2] == SEPARATOR[2];
    }
  }
}
