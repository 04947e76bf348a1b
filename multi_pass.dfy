/** The multi-pass rendering state machine of the camera. A render pass either
    sorts and draws, rewinds the sprite batch to replay what the first pass
    wrote, or draws a cached depth list again. The batch write index is an
    abstract integer, and what the sorter draws moves it by an amount the
    model takes as an input. */
module MultiPass {

  /** `multiRendering` is the multi-pass flag, `lastIdx` the batch index the
      last pass ended at (0 meaning that no pass has run since the start). */
  datatype PassState = PassState(multiRendering: bool, lastIdx: int)

  /** What a render pass does with the sorter and the batch. */
  datatype Step =
    | RenderSorted     // the sorter sorts and draws into the batch
    | RewindBatch      // the batch write index is set back to the resume index
    | CreateDepthList  // the sorter fills the cached depth list
    | DrawDepthList    // every object of the cached depth list draws itself

  datatype PassResult = PassResult(state: PassState, batchIdx: int, steps: seq<Step>)

  /** The state after multi-pass rendering is started. */
  function Started(): PassState {
    PassState(true, 0)
  }

  /** One render pass from state `s`, the batch write index at `batchIdx`;
      drawing (sorted or from the depth list) advances the index by `drawn`. */
  function Render(s: PassState, singleBatch: bool, batchIdx: int, drawn: nat): (r: PassResult)
    ensures r.state.multiRendering == s.multiRendering
    ensures r.state.lastIdx == r.batchIdx
    ensures RenderSorted in r.steps <==> !s.multiRendering || (singleBatch && s.lastIdx == 0)
    ensures CreateDepthList in r.steps <==> s.multiRendering && !singleBatch && s.lastIdx == 0
    ensures RewindBatch in r.steps <==> s.multiRendering && singleBatch && s.lastIdx != 0
    ensures RewindBatch in r.steps ==> r.steps == [RewindBatch] && r == PassResult(s, s.lastIdx, r.steps)
    ensures DrawDepthList in r.steps <==> s.multiRendering && !singleBatch
    ensures RenderSorted in r.steps ==> r.steps == [RenderSorted]
    ensures DrawDepthList in r.steps ==> r.steps[|r.steps| - 1] == DrawDepthList && multiset(r.steps)[DrawDepthList] == 1
  {
    if !s.multiRendering || (singleBatch && s.lastIdx == 0) then
      PassResult(s.(lastIdx := batchIdx + drawn), batchIdx + drawn, [RenderSorted])
    else if singleBatch then
      PassResult(s, s.lastIdx, [RewindBatch])
    else
      var steps := (if s.lastIdx == 0 then [CreateDepthList] else []) + [DrawDepthList];
      PassResult(s.(lastIdx := batchIdx + drawn), batchIdx + drawn, steps)
  }

  /** The pass calls into the sorter (and so needs one). */
  predicate UsesSorter(steps: seq<Step>) {
    RenderSorted in steps || CreateDepthList in steps
  }

  /** The inputs of one render pass: the batch index it starts at and how
      far its drawing advances it. */
  datatype Frame = Frame(batchIdx: int, drawn: nat)

  /** The state after a series of render passes, and the steps they took. */
  function RenderAll(s: PassState, singleBatch: bool, frames: seq<Frame>): (PassState, seq<Step>)
    decreases |frames|
  {
    if frames == [] then (s, [])
    else
      var r := Render(s, singleBatch, frames[0].batchIdx, frames[0].drawn);
      var rest := RenderAll(r.state, singleBatch, frames[1..]);
      (rest.0, r.steps + rest.1)
  }

  /** Once a single-batch pass has recorded a non-zero resume index, every
      further pass only rewinds the batch to it: nothing is sorted again and
      the state stays as it is. */
  lemma {:induction false} SingleBatchReplays(s: PassState, frames: seq<Frame>)
    requires s.multiRendering && s.lastIdx != 0
    ensures RenderAll(s, true, frames).0 == s
    ensures |RenderAll(s, true, frames).1| == |frames|
    ensures forall k :: 0 <= k < |frames| ==> RenderAll(s, true, frames).1[k] == RewindBatch
    decreases |frames|
  {
    if frames != [] {
      SingleBatchReplays(s, frames[1..]);
    }
  }

  /** After multi-pass rendering is started in single-batch mode, the first
      pass sorts and, if it leaves the batch index non-zero, every later pass
      replays that batch: the sorter runs exactly once. */
  lemma {:induction false} SingleBatchSortsOnce(frames: seq<Frame>)
    requires frames != []
    requires frames[0].batchIdx + frames[0].drawn != 0
    ensures multiset(RenderAll(Started(), true, frames).1)[RenderSorted] == 1
    ensures RenderAll(Started(), true, frames).0.lastIdx == frames[0].batchIdx + frames[0].drawn
  {
    var r := Render(Started(), true, frames[0].batchIdx, frames[0].drawn);
    SingleBatchReplays(r.state, frames[1..]);
    var rest := RenderAll(r.state, true, frames[1..]).1;
    assert RenderSorted !in rest;
    assert RenderAll(Started(), true, frames).1 == [RenderSorted] + rest;
  }

  /** Outside multi-pass mode every pass sorts and draws, and nothing else. */
  lemma {:induction false} SinglePassAlwaysSorts(s: PassState, singleBatch: bool, frames: seq<Frame>)
    requires !s.multiRendering
    ensures !RenderAll(s, singleBatch, frames).0.multiRendering
    ensures |RenderAll(s, singleBatch, frames).1| == |frames|
    ensures forall k :: 0 <= k < |frames| ==> RenderAll(s, singleBatch, frames).1[k] == RenderSorted
    decreases |frames|
  {
    if frames != [] {
      var r := Render(s, singleBatch, frames[0].batchIdx, frames[0].drawn);
      SinglePassAlwaysSorts(r.state, singleBatch, frames[1..]);
    }
  }

  /** In multi-pass mode without single-batch replay, the depth list is
      built only by a pass that starts at resume index 0; if no pass ends at
      batch index 0, it is built at most once, by the first pass. Every pass
      draws the cached list, once. */
  lemma {:induction false} DepthListBuiltOnce(s: PassState, frames: seq<Frame>)
    requires s.multiRendering
    requires forall k :: 0 <= k < |frames| ==> frames[k].batchIdx + frames[k].drawn != 0
    ensures multiset(RenderAll(s, false, frames).1)[CreateDepthList]
         == (if frames != [] && s.lastIdx == 0 then 1 else 0)
    ensures multiset(RenderAll(s, false, frames).1)[RenderSorted] == 0
    ensures multiset(RenderAll(s, false, frames).1)[DrawDepthList] == |frames|
    decreases |frames|
  {
    if frames != [] {
      var r := Render(s, false, frames[0].batchIdx, frames[0].drawn);
      DepthListBuiltOnce(r.state, frames[1..]);
      var rest := RenderAll(r.state, false, frames[1..]).1;
      assert RenderAll(s, false, frames).1 == r.steps + rest;
      assert multiset(r.steps)[CreateDepthList] == (if s.lastIdx == 0 then 1 else 0);
      assert multiset(r.steps)[RenderSorted] == 0;
      assert multiset(r.steps)[DrawDepthList] == 1;
    }
  }
}
