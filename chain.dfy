/** The Chain of Responsibility example: handlers linked by `set_next`, each answering the one
    request that names its level and forwarding every other request unchanged. */
module Chain {
  import opened Wrappers

  /** The concrete handler classes. `Base` is a bare `AbstractHandler`, which only forwards. */
  datatype Level = Base | Low | Mid | High

  /** The request a level answers, if any. */
  function Accepts(level: Level): (r: Option<string>)
    ensures r.Some? <==> level != Base
  {
    match level
    case Base => None
    case Low => Some("low")
    case Mid => Some("mid")
    case High => Some("high")
  }

  /** The handler's class name, as it prefixes the answer. */
  function ClassName(level: Level): string
  {
    match level
    case Base => "AbstractHandler"
    case Low => "LowLevelHandler"
    case Mid => "MidLevelHandler"
    case High => "HighLevelHandler"
  }

  /** The answer a handler of `level` gives to a request it accepts. */
  function Answer(level: Level, request: string): string
  {
    ClassName(level) + ": Handling " + request
  }

  /** Whether a handler of `level` answers `request` itself. */
  predicate Matches(level: Level, request: string)
  {
    Accepts(level) == Some(request)
  }

  class Handler {
    const level: Level
    var next: Handler?

    /** A new handler has no successor. */
    constructor (level: Level)
      ensures this.level == level && next == null
    {
      this.level := level;
      next := null;
    }

    /** `set_next`: stores the successor and returns it, so calls can be chained. */
    method SetNext(h: Handler) returns (r: Handler)
      modifies this
      ensures next == h && r == h
    {
      next := h;
      r := h;
    }

    /** `handle`, over the chain `path` that starts here: a handler that accepts the request
        answers it, and any other forwards it unchanged to its successor, or gives `None` when it
        has none. The result is the first answer along the chain. */
    function Handle(request: string, ghost path: seq<Handler>): (r: Option<string>)
      requires IsChain(this, path)
      reads set h | h in path
      ensures r == FirstAnswer(path, request)
      decreases |path|
    {
      if Matches(level, request) then
        Some(Answer(level, request))
      else if next == null then
        None
      else
        ChainTail(this, path);
        next.Handle(request, path[1..])
    }
  }

  /** Reference definition: the answer of the first handler in `path` that accepts `request`. */
  function FirstAnswer(path: seq<Handler>, request: string): Option<string>
  {
    if path == [] then None
    else if Matches(path[0].level, request) then Some(Answer(path[0].level, request))
    else FirstAnswer(path[1..], request)
  }

  /** A request is answered exactly when some handler on the chain accepts it, and then by the
      first such handler. */
  lemma {:induction false} FirstAnswerIsFirstMatch(path: seq<Handler>, request: string)
    ensures FirstAnswer(path, request).Some? <==>
              exists k :: 0 <= k < |path| && Matches(path[k].level, request)
    ensures forall k :: 0 <= k < |path| && Matches(path[k].level, request) &&
                        (forall j :: 0 <= j < k ==> !Matches(path[j].level, request)) ==>
                          FirstAnswer(path, request) == Some(Answer(path[k].level, request))
  {
    if path != [] {
      FirstAnswerIsFirstMatch(path[1..], request);
      if !Matches(path[0].level, request) {
        forall k | 1 <= k < |path| && Matches(path[k].level, request)
          ensures 0 <= k - 1 < |path[1..]| && Matches(path[1..][k - 1].level, request)
        {
        }
        forall k | 0 <= k < |path| && Matches(path[k].level, request) &&
                   (forall j :: 0 <= j < k ==> !Matches(path[j].level, request))
          ensures FirstAnswer(path, request) == Some(Answer(path[k].level, request))
        {
          assert path[1..][k - 1] == path[k];
          forall j | 0 <= j < k - 1
            ensures !Matches(path[1..][j].level, request)
          {
            assert path[1..][j] == path[j + 1];
          }
        }
      }
    }
  }

  /** Requests are forwarded unchanged: what a handler that does not accept the request returns
      is exactly what its successor returns. */
  lemma ForwardsUnchanged(h: Handler, path: seq<Handler>, request: string)
    requires IsChain(h, path) && !Matches(h.level, request) && h.next != null
    ensures IsChain(h.next, path[1..])
    ensures h.Handle(request, path) == h.next.Handle(request, path[1..])
  {
    ChainTail(h, path);
  }

  /** `path` lists the handlers reached from `h` by following `next`, ending at a handler with no
      successor; the chain is therefore finite. */
  ghost predicate IsChain(h: Handler, path: seq<Handler>)
    reads set x | x in path
  {
    && |path| > 0
    && path[0] == h
    && path[|path| - 1].next == null
    && forall k :: 0 <= k < |path| - 1 ==> path[k].next == path[k + 1]
  }

  /** The chain from a handler's successor is the rest of the handler's chain. */
  lemma ChainTail(h: Handler, path: seq<Handler>)
    requires IsChain(h, path) && h.next != null
    ensures |path| > 1 && path[1] == h.next && IsChain(h.next, path[1..])
  {
    forall k | 0 <= k < |path[1..]| - 1
      ensures path[1..][k].next == path[1..][k + 1]
    {
      assert path[k + 1].next == path[k + 2];
    }
  }

  /** The test chain low → mid → high. */
  method BuildChain() returns (low: Handler, ghost path: seq<Handler>)
    ensures fresh(low) && IsChain(low, path)
    ensures |path| == 3 && path[0].level == Low && path[1].level == Mid && path[2].level == High
  {
    low := new Handler(Low);
    var mid := new Handler(Mid);
    var high := new Handler(High);
    var returned := low.SetNext(mid);
    returned := returned.SetNext(high);
    path := [low, mid, high];
  }

  /** The chain tests: each request is sent to the low handler. */
  method ChainScenario() returns (rLow: Option<string>, rMid: Option<string>,
                                  rHigh: Option<string>, rUnknown: Option<string>)
    ensures rLow == Some("LowLevelHandler: Handling low")
    ensures rMid == Some("MidLevelHandler: Handling mid")
    ensures rHigh == Some("HighLevelHandler: Handling high")
    ensures rUnknown == None
  {
    var low, path := BuildChain();
    var midPath, highPath := path[1..], path[2..];
    assert midPath[0] == path[1] && midPath[1..] == highPath && highPath[0] == path[2] && highPath[1..] == [];
    assert FirstAnswer(highPath, "unknown") == None;
    assert FirstAnswer(midPath, "unknown") == None;
    assert FirstAnswer(midPath, "high") == FirstAnswer(highPath, "high");
    assert Answer(Low, "low") == "LowLevelHandler: Handling low";
    assert Answer(Mid, "mid") == "MidLevelHandler: Handling mid";
    assert Answer(High, "high") == "HighLevelHandler: Handling high";
    rLow := low.Handle("low", path);
    rMid := low.Handle("mid", path);
    rHigh := low.Handle("high", path);
    rUnknown := low.Handle("unknown", path);
  }

  /** A handler with no successor answers only its own request. */
  method LoneHandlerScenario() returns (own: Option<string>, other: Option<string>)
    ensures own == Some("MidLevelHandler: Handling mid") && other == None
  {
    var mid := new Handler(Mid);
    assert [mid][1..] == [];
    assert Answer(Mid, "mid") == "MidLevelHandler: Handling mid";
    own := mid.Handle("mid", [mid]);
    other := mid.Handle("low", [mid]);
  }
}
