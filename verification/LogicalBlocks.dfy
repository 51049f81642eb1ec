/** The logical block table of a sequence: the structure whose size the simulator's rounding-up
    division stands for. */
module LogicalBlocks {
  import opened Requests

  const BLANK_TOKEN_ID: int := -1

  // ----- lists of block contents

  function Concat(view: seq<seq<int>>): seq<int>
    decreases |view|
  {
    if view == [] then [] else Concat(view[..|view| - 1]) + view[|view| - 1]
  }

  /** No block is empty, and all but the last are full. */
  ghost predicate Tidy(view: seq<seq<int>>, bs: int) {
    && (forall k :: 0 <= k < |view| ==> 1 <= |view[k]| <= bs)
    && (forall k :: 0 <= k < |view| - 1 ==> |view[k]| == bs)
  }

  lemma {:induction false} FullLength(view: seq<seq<int>>, bs: int)
    requires forall k :: 0 <= k < |view| ==> |view[k]| == bs
    ensures |Concat(view)| == |view| * bs
    decreases |view|
  {
    if view != [] {
      FullLength(view[..|view| - 1], bs);
      MulNext(|view| - 1, bs);
    }
  }

  /** A tidy table has the least number of blocks that hold its tokens. */
  lemma {:induction false} TidyCount(view: seq<seq<int>>, bs: int)
    requires bs >= 1 && Tidy(view, bs)
    ensures |view| == CeilDiv(|Concat(view)|, bs)
  {
    var n, len := |view|, |Concat(view)|;
    if n == 0 {
      CeilDivLeast(0, bs, 0);
      CeilDivLeast(0, bs, -1);
    } else {
      FullLength(view[..n - 1], bs);
      MulNext(n - 1, bs);
      CeilDivLeast(len, bs, n);
      CeilDivLeast(len, bs, n - 1);
    }
  }

  lemma {:induction false} ConcatMore(view: seq<seq<int>>, c: seq<int>)
    ensures Concat(view + [c]) == Concat(view) + c
  {
    assert (view + [c])[..|view|] == view;
  }

  /** The tokens determine the table. */
  lemma {:induction false} TidyUnique(a: seq<seq<int>>, b: seq<seq<int>>, bs: int)
    requires bs >= 1 && Tidy(a, bs) && Tidy(b, bs) && Concat(a) == Concat(b)
    ensures a == b
    decreases |a|
  {
    TidyCount(a, bs);
    TidyCount(b, bs);
    if a != [] {
      var n := |a| - 1;
      FullLength(a[..n], bs);
      FullLength(b[..n], bs);
      var fa, fb := Concat(a[..n]), Concat(b[..n]);
      assert fa == Concat(a)[..n * bs] && fb == Concat(b)[..n * bs];
      assert a[n] == Concat(a)[n * bs..] && b[n] == Concat(b)[n * bs..];
      TidyUnique(a[..n], b[..n], bs);
      assert a == a[..n] + [a[n]] && b == b[..n] + [b[n]];
    }
  }

  /** Appending into the last block. */
  lemma {:induction false} GrowLast(view: seq<seq<int>>, piece: seq<int>)
    requires view != []
    ensures Concat(view[|view| - 1 := view[|view| - 1] + piece]) == Concat(view) + piece
  {
    var n := |view| - 1;
    assert view[n := view[n] + piece][..n] == view[..n];
  }

  predicate Fitting(view: seq<seq<int>>, bs: nat) {
    forall k :: 0 <= k < |view| ==> |view[k]| <= bs
  }

  /** The table with a last block that has room. */
  function WithRoom(view: seq<seq<int>>, bs: nat): (v: seq<seq<int>>)
    requires bs >= 1 && Fitting(view, bs)
    ensures v != [] && Fitting(v, bs) && |v[|v| - 1]| < bs
  {
    if view == [] || |view[|view| - 1]| == bs then view + [[]] else view
  }

  /** Room in the last block, opening a new one if necessary. */
  function RoomOf(view: seq<seq<int>>, bs: nat): (n: nat)
    requires bs >= 1 && Fitting(view, bs)
    ensures 1 <= n <= bs
  {
    var v := WithRoom(view, bs);
    bs - |v[|v| - 1]|
  }

  function Grown(view: seq<seq<int>>, piece: seq<int>, bs: nat): (w: seq<seq<int>>)
    requires bs >= 1 && Fitting(view, bs) && |piece| <= RoomOf(view, bs)
    ensures Fitting(w, bs)
  {
    var v := WithRoom(view, bs);
    v[|v| - 1 := v[|v| - 1] + piece]
  }

  function Piece(tokens: seq<int>, room: nat): (p: seq<int>)
    ensures |p| <= room && (tokens != [] && room >= 1 ==> p != [])
  {
    if room <= |tokens| then tokens[..room] else tokens
  }

  /** One round of the loop. */
  lemma {:induction false} GrownFacts(view: seq<seq<int>>, piece: seq<int>, bs: nat)
    requires bs >= 1 && Tidy(view, bs) && Fitting(view, bs) && 1 <= |piece| <= RoomOf(view, bs)
    ensures Tidy(Grown(view, piece, bs), bs) && Concat(Grown(view, piece, bs)) == Concat(view) + piece
  {
    var v := WithRoom(view, bs);
    GrowLast(v, piece);
    if v != view {
      ConcatMore(view, []);
    }
  }

  /** The part of the input behind which the cursor stands, and the next piece. */
  lemma {:induction false} PieceMore(stored: seq<int>, before: seq<int>, tokens: seq<int>, cursor: nat, room: nat)
    requires cursor <= |tokens| && stored == before + Piece(tokens, cursor)
    ensures stored + Piece(tokens[cursor..], room) == before + Piece(tokens, cursor + room)
  {
    assert Piece(tokens, cursor) + Piece(tokens[cursor..], room) == Piece(tokens, cursor + room);
  }

  // ----- one block

  class LogicalTokenBlock {
    const blockNumber: nat
    const blockSize: nat
    const tokenIds: array<int>
    var numTokens: nat

    ghost predicate Valid()
      reads this
    {
      numTokens <= blockSize == tokenIds.Length
    }

    constructor (blockNumber: nat, blockSize: nat)
      ensures Valid() && fresh(tokenIds) && Contents() == []
      ensures this.blockNumber == blockNumber && this.blockSize == blockSize
    {
      this.blockNumber, this.blockSize, numTokens := blockNumber, blockSize, 0;
      tokenIds := new int[blockSize](_ => BLANK_TOKEN_ID);
    }

    /** The tokens stored so far. */
    ghost function Contents(): seq<int>
      requires Valid()
      reads this, tokenIds
    {
      tokenIds[..numTokens]
    }

    method IsFull() returns (r: bool)
      requires Valid()
      ensures r <==> |Contents()| == blockSize
    {
      return numTokens == blockSize;
    }

    method GetNumEmptySlots() returns (n: nat)
      requires Valid()
      ensures n == blockSize - |Contents()|
    {
      return blockSize - numTokens;
    }

    method AppendTokens(tokens: seq<int>)
      requires Valid() && |tokens| <= blockSize - |Contents()|
      modifies this, tokenIds
      ensures Valid() && Contents() == old(Contents()) + tokens
    {
      var curr := numTokens;
      for k := 0 to |tokens|
        invariant numTokens == curr && Valid() && curr == |old(Contents())|
        invariant tokenIds[..curr + k] == old(Contents()) + tokens[..k]
      {
        tokenIds[curr + k] := tokens[k];
      }
      numTokens := numTokens + |tokens|;
    }

    method GetTokenIds() returns (s: seq<int>)
      requires Valid()
      ensures s == Contents()
    {
      return tokenIds[..numTokens];
    }
  }

  // ----- the sequence

  class SequenceData {
    const promptTokenIds: seq<int>
    var outputTokenIds: seq<int>
    var cumulativeLogprob: real

    constructor (prompt: seq<int>)
      ensures promptTokenIds == prompt && outputTokenIds == [] && cumulativeLogprob == 0.0
    {
      promptTokenIds, outputTokenIds, cumulativeLogprob := prompt, [], 0.0;
    }

    method AppendTokenId(token: int, logprob: real)
      modifies this
      ensures outputTokenIds == old(outputTokenIds) + [token]
      ensures cumulativeLogprob == old(cumulativeLogprob) + logprob
    {
      outputTokenIds := outputTokenIds + [token];
      cumulativeLogprob := cumulativeLogprob + logprob;
    }

    function GetTokenIds(): seq<int>
      reads this
    {
      promptTokenIds + outputTokenIds
    }
  }

  class Sequence {
    const blockSize: nat
    const data: SequenceData
    var outputLogprobs: seq<map<int, real>>
    var logicalTokenBlocks: seq<LogicalTokenBlock>

    /** The blocks and their arrays. */
    ghost var repr: set<object>
    /** What the blocks hold, block by block. */
    ghost var contents: seq<seq<int>>

    /** Blocks of the right size, numbered in order, sharing nothing. */
    ghost predicate Sound()
      reads this, repr
    {
      && blockSize >= 1 && this !in repr && data !in repr && |contents| == |logicalTokenBlocks|
      && (forall k :: 0 <= k < |logicalTokenBlocks| ==>
          logicalTokenBlocks[k] in repr && logicalTokenBlocks[k].tokenIds in repr)
      && (forall k :: 0 <= k < |logicalTokenBlocks| ==>
            && logicalTokenBlocks[k].Valid() && logicalTokenBlocks[k].blockSize == blockSize
            && logicalTokenBlocks[k].blockNumber == k && contents[k] == logicalTokenBlocks[k].Contents())
      && (forall j, k :: 0 <= j < k < |logicalTokenBlocks| ==>
            && logicalTokenBlocks[j] != logicalTokenBlocks[k]
            && logicalTokenBlocks[j].tokenIds != logicalTokenBlocks[k].tokenIds)
    }

    /** The block table holds the prompt and the output, packed tight. */
    ghost predicate Valid()
      reads this, data, repr
    {
      && Sound() && Tidy(contents, blockSize) && Concat(contents) == data.GetTokenIds()
      && |outputLogprobs| == |data.outputTokenIds|
    }

    constructor (prompt: seq<int>, blockSize: nat)
      requires blockSize >= 1
      ensures Valid() && fresh(data) && fresh(repr)
      ensures this.blockSize == blockSize && data.promptTokenIds == prompt && data.outputTokenIds == []
    {
      this.blockSize := blockSize;
      data := new SequenceData(prompt);
      outputLogprobs, logicalTokenBlocks, repr, contents := [], [], {}, [];
      new;
      AppendTokensToBlocks(prompt);
      assert data.GetTokenIds() == prompt;
    }

    method AppendLogicalBlock()
      requires Sound()
      modifies this`logicalTokenBlocks, this`repr, this`contents
      ensures Sound() && contents == old(contents) + [[]]
      ensures old(repr) <= repr && fresh(repr - old(repr))
    {
      var block := new LogicalTokenBlock(|logicalTokenBlocks|, blockSize);
      logicalTokenBlocks := logicalTokenBlocks + [block];
      repr, contents := repr + {block, block.tokenIds}, contents + [[]];
    }

    /** Append to the last block, which must have room. */
    method FillLast(piece: seq<int>)
      requires Sound() && logicalTokenBlocks != []
      requires |piece| <= blockSize - |contents[|logicalTokenBlocks| - 1]|
      modifies this`contents, logicalTokenBlocks[|logicalTokenBlocks| - 1]
      modifies logicalTokenBlocks[|logicalTokenBlocks| - 1].tokenIds
      ensures Sound()
      ensures contents == old(contents[|logicalTokenBlocks| - 1 := contents[|logicalTokenBlocks| - 1] + piece])
    {
      var last := logicalTokenBlocks[|logicalTokenBlocks| - 1];
      last.AppendTokens(piece);
      contents := contents[|contents| - 1 := contents[|contents| - 1] + piece];
      assert forall k :: 0 <= k < |logicalTokenBlocks| - 1 ==>
        logicalTokenBlocks[k].Contents() == old(logicalTokenBlocks[k].Contents());
    }

    /** Make sure that the last block has room. */
    method OpenBlock()
      requires Sound()
      modifies this`logicalTokenBlocks, this`repr, this`contents
      ensures Sound() && contents == WithRoom(old(contents), blockSize)
      ensures old(repr) <= repr && fresh(repr - old(repr))
    {
      if logicalTokenBlocks == [] {
        AppendLogicalBlock();
      }
      var full := logicalTokenBlocks[|logicalTokenBlocks| - 1].IsFull();
      if full {
        AppendLogicalBlock();
      }
    }

    /** Store what fits of the tokens into the last block, opening one if necessary. */
    method StoreSome(tokens: seq<int>) returns (room: nat)
      requires Sound()
      modifies this`logicalTokenBlocks, this`repr, this`contents, repr
      ensures old(repr) <= repr && fresh(repr - old(repr))
      ensures Sound() && room == RoomOf(old(contents), blockSize)
      ensures contents == Grown(old(contents), Piece(tokens, room), blockSize)
    {
      OpenBlock();
      room := logicalTokenBlocks[|logicalTokenBlocks| - 1].GetNumEmptySlots();
      FillLast(Piece(tokens, room));
    }

    /** The table holds what it held before and the input up to the cursor. */
    ghost predicate StoredUpTo(before: seq<int>, tokens: seq<int>, cursor: nat)
      reads this, repr
    {
      Sound() && Tidy(contents, blockSize) && Concat(contents) == before + Piece(tokens, cursor)
    }

    /** Store the next piece; the cursor moves by the room there was. */
    method StoreNext(ghost before: seq<int>, tokens: seq<int>, cursor: nat) returns (cursor': nat)
      requires StoredUpTo(before, tokens, cursor) && cursor < |tokens|
      modifies this`logicalTokenBlocks, this`repr, this`contents, repr
      ensures StoredUpTo(before, tokens, cursor') && cursor' > cursor
      ensures old(repr) <= repr && fresh(repr - old(repr))
    {
      ghost var was, stored := contents, Concat(contents);
      var room := StoreSome(tokens[cursor..]);
      GrownFacts(was, Piece(tokens[cursor..], room), blockSize);
      PieceMore(stored, before, tokens, cursor, room);
      cursor' := cursor + room;
    }

    /** The cursor moves by the room of the block each time, so it may end behind the input. */
    method AppendTokensToBlocks(tokens: seq<int>)
      requires Sound() && Tidy(contents, blockSize)
      modifies this`logicalTokenBlocks, this`repr, this`contents, repr
      ensures Sound() && Tidy(contents, blockSize) && Concat(contents) == old(Concat(contents)) + tokens
      ensures old(repr) <= repr && fresh(repr - old(repr))
    {
      var cursor := 0;
      ghost var before := Concat(contents);
      while cursor < |tokens|
        invariant StoredUpTo(before, tokens, cursor)
        invariant old(repr) <= repr && fresh(repr - old(repr))
        decreases |tokens| - cursor
      {
        cursor := StoreNext(before, tokens, cursor);
      }
    }

    /** The token and its log-probabilities, apart from the block table. */
    method Record(token: int, logprobs: map<int, real>)
      requires Sound() && token in logprobs
      modifies this`outputLogprobs, data
      ensures Sound() && data.outputTokenIds == old(data.outputTokenIds) + [token]
      ensures outputLogprobs == old(outputLogprobs) + [logprobs]
      ensures data.cumulativeLogprob == old(data.cumulativeLogprob) + logprobs[token]
    {
      outputLogprobs := outputLogprobs + [logprobs];
      data.AppendTokenId(token, logprobs[token]);
    }

    /** One generated token; its log-probability must be among those reported. */
    method AppendTokenId(token: int, logprobs: map<int, real>)
      requires Valid() && token in logprobs
      modifies this, data, repr
      ensures Valid()
      ensures old(repr) <= repr && fresh(repr - old(repr))
      ensures data.outputTokenIds == old(data.outputTokenIds) + [token]
      ensures outputLogprobs == old(outputLogprobs) + [logprobs]
      ensures data.cumulativeLogprob == old(data.cumulativeLogprob) + logprobs[token]
    {
      ghost var stored := data.GetTokenIds();
      AppendTokensToBlocks([token]);
      Record(token, logprobs);
      assert data.GetTokenIds() == stored + [token];
    }
  }

  /** The block table is as large as the simulator assumes, and determined by the tokens. */
  lemma {:induction false} TableSize(s: Sequence)
    requires s.Valid()
    ensures |s.logicalTokenBlocks| == CeilDiv(|s.data.GetTokenIds()|, s.blockSize)
    ensures forall view :: Tidy(view, s.blockSize) && Concat(view) == s.data.GetTokenIds() ==> view == s.contents
  {
    TidyCount(s.contents, s.blockSize);
    forall view | Tidy(view, s.blockSize) && Concat(view) == s.data.GetTokenIds() ensures view == s.contents {
      TidyUnique(view, s.contents, s.blockSize);
    }
  }
}
