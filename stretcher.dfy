/** The real-time time-stretcher seen as an abstract block processor.
    How many output frames one input block yields, and which, is an oracle
    (`synth`): any function of the current ratios, of all input fed since the
    last rebuild and of the new block. The stretcher buffers what it produced
    until it is retrieved. */
module Stretch {

  import opened Common

  /** `time_ratio` and the pitch shift in semitones the stretcher was given. */
  datatype StretchParams = StretchParams(timeRatio: real, semitones: real)

  /** The output the stretcher produces for one `process` call. */
  type Synth = (StretchParams, seq<real>, seq<real>) -> seq<real>

  class Stretcher {
    const synth: Synth
    var params: StretchParams
    /** All input fed since the stretcher was (re)built. */
    var fed: seq<real>
    /** Produced output not yet retrieved; its length is `available()`. */
    var pending: seq<real>
    /** Everything retrieved since the last rebuild, oldest first. */
    ghost var retrieved: seq<real>

    constructor (synth: Synth, params: StretchParams)
      ensures this.synth == synth && this.params == params
      ensures fed == [] && pending == [] && retrieved == []
    {
      this.synth := synth;
      this.params := params;
      fed, pending := [], [];
      retrieved := [];
    }

    /** Building a new stretcher: all buffered state is discarded. */
    method Reset(p: StretchParams)
      modifies this
      ensures params == p
      ensures fed == [] && pending == [] && retrieved == []
    {
      params := p;
      fed, pending := [], [];
      retrieved := [];
    }

    method SetTimeRatio(r: real)
      modifies this`params
      ensures params == old(params).(timeRatio := r)
    {
      params := params.(timeRatio := r);
    }

    method SetSemitones(s: real)
      modifies this`params
      ensures params == old(params).(semitones := s)
    {
      params := params.(semitones := s);
    }

    /** `process`: feed one input block; its output joins the pending frames. */
    method Process(block: seq<real>)
      modifies this`fed, this`pending
      ensures fed == old(fed) + block
      ensures pending == old(pending) + synth(params, old(fed), block)
    {
      var out := synth(params, fed, block);
      fed := fed + block;
      pending := pending + out;
    }

    /** The oracle for how many output frames can be retrieved. */
    function Available(): (n: nat)
      reads this
      ensures n == 0 <==> pending == []
    {
      |pending|
    }

    /** `retrieve(n)`: hand out up to `n` of the pending frames, oldest first;
        the frames handed out and the frames still pending make up what was
        pending before. */
    method Retrieve(n: nat) returns (out: seq<real>)
      modifies this`pending, this`retrieved
      ensures |out| == MinInt(n, |old(pending)|)
      ensures out + pending == old(pending)
      ensures retrieved == old(retrieved) + out
    {
      var k := MinInt(n, |pending|);
      out := pending[..k];
      pending := pending[k..];
      retrieved := retrieved + out;
      assert out + pending == old(pending);
    }
  }
}
