/**
 Forwarding the agent's response stream to the websocket.  Every post may fail; a failed post of a
 tool notice is swallowed, any other failure ends the invocation.
 */
module StreamForwarding {
  import opened Calls

  /** A field of a chunk: missing, a dictionary with its message, or anything else. */
  datatype Field = Missing | Dict(message: string) | NotDict

  datatype Chunk =
    | Content(text: string)
    | Thinking(thinking: Field)
    | ToolUse(usage: Field)
    | Error
    | Completion
    | Unexpected

  /** The chunks, and whether the stream breaks after them. */
  datatype Stream = Stream(chunks: seq<Chunk>, breaks: bool)

  const END_TOKEN := "##END_CONVERSATION##"

  datatype Frame = Text(data: string) | Tool(message: string)

  datatype Post = Post(frame: Frame, delivered: bool)

  /** Chunks that are counted. */
  predicate Accepted(c: Chunk) {
    || (c.Content? && c.text != "")
    || (c.Thinking? && !c.thinking.Missing?)
    || (c.ToolUse? && !c.usage.Missing?)
  }

  /** An accepted chunk whose field is not a dictionary makes the worker throw. */
  predicate Malformed(c: Chunk) {
    (c.Thinking? && c.thinking.NotDict?) || (c.ToolUse? && c.usage.NotDict?)
  }

  function FrameOf(c: Chunk): Frame
    requires Accepted(c) && !Malformed(c)
  {
    match c
    case Content(text) => Text(text)
    case Thinking(thinking) => Text("<thinking>" + thinking.message + "</thinking>")
    case ToolUse(usage) => Tool(usage.message)
  }

  ghost predicate WellFormed(cs: seq<Chunk>) {
    forall c <- cs :: !Malformed(c)
  }

  /** The frames of the accepted chunks, in order. */
  function FramesOf(cs: seq<Chunk>): seq<Frame> {
    if cs == [] then []
    else
      var last := cs[|cs|-1];
      FramesOf(cs[..|cs|-1]) + if Accepted(last) && !Malformed(last) then [FrameOf(last)] else []
  }

  /** What each kind of chunk is forwarded as. */
  lemma FramesByKind(c: Chunk)
    ensures FramesOf([c]) ==
            match c
            case Content(text) => if text == "" then [] else [Text(text)]
            case Thinking(Dict(message)) => [Text("<thinking>" + message + "</thinking>")]
            case ToolUse(Dict(message)) => [Tool(message)]
            case _ => []
    ensures WellFormed([c]) <==> c != Thinking(NotDict) && c != ToolUse(NotDict)
    ensures Accepted(c) <==> (c.Content? && c.text != "") || c in {Thinking(NotDict), ToolUse(NotDict)} || FramesOf([c]) != []
  {
    assert [c][..0] == [];
  }

  lemma {:induction false} FramesOfConcat(a: seq<Chunk>, b: seq<Chunk>)
    ensures FramesOf(a + b) == FramesOf(a) + FramesOf(b)
  {
    if b == [] {
      assert a + b == a;
    } else {
      FramesOfConcat(a, b[..|b|-1]);
      assert (a + b)[..|a + b|-1] == a + b[..|b|-1];
    }
  }

  function Count(cs: seq<Chunk>, p: Chunk -> bool): nat {
    if cs == [] then 0 else Count(cs[..|cs|-1], p) + if p(cs[|cs|-1]) then 1 else 0
  }

  /** Where the forwarding ends: the first completion or error, or the end of the stream. */
  function EndOf(cs: seq<Chunk>): (n: nat)
    ensures n <= |cs|
    ensures n < |cs| ==> cs[n].Completion? || cs[n].Error?
    ensures forall i :: 0 <= i < n ==> !cs[i].Completion? && !cs[i].Error?
  {
    if cs == [] || cs[0].Completion? || cs[0].Error? then 0 else 1 + EndOf(cs[1..])
  }

  function IsContent(c: Chunk): bool { Accepted(c) && c.Content? }
  function IsThinking(c: Chunk): bool { Accepted(c) && c.Thinking? }
  function IsToolUse(c: Chunk): bool { Accepted(c) && c.ToolUse? }

  datatype Counts = Counts(content: nat, thinking: nat, tool: nat, websocket: nat, completed: bool)

  datatype Failure = Configuration | Client | Invocation | Other

  datatype Result<+T> = Ok(value: T) | Raised(failure: Failure)

  function Frames(posts: seq<Post>): (fs: seq<Frame>)
    ensures |fs| == |posts| && forall i :: 0 <= i < |posts| ==> fs[i] == posts[i].frame
  {
    seq(|posts|, i requires 0 <= i < |posts| => posts[i].frame)
  }

  /** Everything but tool notices was delivered. */
  ghost predicate TextDelivered(posts: seq<Post>) {
    forall p <- posts :: p.frame.Text? ==> p.delivered
  }

  class Websocket {
    ghost var posts: seq<Post>
    // Connections with a running keep-alive.
    var alive: set<string>
    // The connections for which one was started.
    ghost var started: seq<string>
    // How many calls raised, on this connection and of the services the worker uses.
    ghost var faults: nat

    constructor ()
      ensures posts == [] && alive == {} && faults == 0 && started == []
    {
      posts, alive, faults, started := [], {}, 0, [];
    }

    /** A call of another service. */
    method Call() returns (raises: bool)
      modifies this`faults
      ensures faults == old(faults) + if raises then 1 else 0
    {
      raises := *;
      faults := faults + if raises then 1 else 0;
    }

    method SendMessage(text: string) returns (raises: bool)
      modifies this`posts, this`faults
      ensures posts == old(posts) + [Post(Text(text), !raises)]
      ensures faults == old(faults) + if raises then 1 else 0
    {
      raises := Call();
      posts := posts + [Post(Text(text), !raises)];
    }

    method SendToolUsage(message: string)
      modifies this`posts
      ensures exists delivered :: posts == old(posts) + [Post(Tool(message), delivered)]
    {
      var delivered: bool := *;
      posts := posts + [Post(Tool(message), delivered)];
    }

    method StartKeepAlive(connection: string) returns (raises: bool)
      modifies this`alive, this`faults, this`started
      ensures started == old(started) + [connection]
      ensures alive == old(alive) || alive == old(alive) + {connection}
      ensures !raises ==> connection in alive
      ensures faults == old(faults) + if raises then 1 else 0
    {
      started := started + [connection];
      raises := Call();
      alive := alive + {connection};
    }

    method StopKeepAlive(connection: string)
      modifies this`alive
      ensures alive == old(alive) - {connection}
    {
      alive := alive - {connection};
    }
  }

  /** The frame of one accepted chunk is posted. */
  method ForwardChunk(w: Websocket, c: Chunk) returns (raises: bool, ghost post: seq<Post>)
    requires Accepted(c)
    modifies w`posts, w`faults
    ensures w.posts == old(w.posts) + post
    ensures w.faults >= old(w.faults) && (raises <==> Malformed(c) || w.faults > old(w.faults))
    ensures !raises ==> !Malformed(c) && |post| == 1 && post[0].frame == FrameOf(c) && (post[0].delivered || c.ToolUse?)
    ensures Malformed(c) ==> post == []
    ensures Frames(post) <= if Malformed(c) then [] else [FrameOf(c)]
  {
    post := [];
    match c {
      case Content(text) => raises := w.SendMessage(text);
      case Thinking(thinking) =>
        if thinking.NotDict? { return true, post; }
        raises := w.SendMessage("<thinking>" + thinking.message + "</thinking>");
      case ToolUse(usage) =>
        // The log line before the type check already asks for the keys of a dictionary.
        if usage.NotDict? { return true, post; }
        w.SendToolUsage(usage.message);
        raises := false;
      case _ => raises := false;
    }
    post := w.posts[|old(w.posts)|..];
    assert Frames(post) == [FrameOf(c)];
    // The observability events may fail as well.
    if !raises && !c.Content? { raises := w.Call(); }
  }

  ghost function CountsOf(cs: seq<Chunk>, completed: bool): Counts {
    var content, thinking, tool := Count(cs, IsContent), Count(cs, IsThinking), Count(cs, IsToolUse);
    Counts(content, thinking, tool, content + thinking + tool, completed)
  }

  lemma NothingForwarded(cs: seq<Chunk>)
    ensures FramesOf(cs[..0]) == [] && CountsOf(cs[..0], false) == Counts(0, 0, 0, 0, false)
  {
  }

  lemma {:induction false} FramesOfPrefix(cs: seq<Chunk>, i: nat, n: nat)
    requires i <= n <= |cs|
    ensures FramesOf(cs[..i]) <= FramesOf(cs[..n])
  {
    if i < n {
      FramesOfPrefix(cs, i, n - 1);
      assert cs[..n][..n-1] == cs[..n-1];
    }
  }

  lemma FramesAppend(posts: seq<Post>, more: seq<Post>)
    ensures Frames(posts + more) == Frames(posts) + Frames(more)
  {
  }

  ghost function AddTo(c: Counts, chunk: Chunk): Counts {
    if !Accepted(chunk) then c
    else
      Counts(if chunk.Content? then c.content + 1 else c.content, if chunk.Thinking? then c.thinking + 1 else c.thinking,
             if chunk.ToolUse? then c.tool + 1 else c.tool, c.websocket + 1, c.completed)
  }

  lemma OneMoreFrame(cs: seq<Chunk>, i: nat)
    requires i < |cs|
    ensures FramesOf(cs[..i+1]) == FramesOf(cs[..i]) + if Accepted(cs[i]) && !Malformed(cs[i]) then [FrameOf(cs[i])] else []
  {
    hide FrameOf, Accepted, Malformed;
    assert cs[..i+1][..i] == cs[..i];
  }

  lemma OneMoreCount(cs: seq<Chunk>, i: nat)
    requires i < |cs|
    ensures CountsOf(cs[..i+1], false) == AddTo(CountsOf(cs[..i], false), cs[i])
  {
    assert cs[..i+1][..i] == cs[..i];
  }

  /** What one chunk adds to the frames and the counts. */
  lemma {:induction false} OneMoreChunk(cs: seq<Chunk>, i: nat)
    requires i < |cs| && i <= EndOf(cs)
    ensures Malformed(cs[i]) ==> Accepted(cs[i])
    ensures Accepted(cs[i]) ==> cs[i].Content? || cs[i].Thinking? || cs[i].ToolUse?
    ensures FramesOf(cs[..i+1]) == FramesOf(cs[..i]) + if Accepted(cs[i]) && !Malformed(cs[i]) then [FrameOf(cs[i])] else []
    ensures CountsOf(cs[..i+1], false) == AddTo(CountsOf(cs[..i], false), cs[i])
    ensures FramesOf(cs[..i]) <= FramesOf(cs[..EndOf(cs)])
    ensures i < EndOf(cs) ==> FramesOf(cs[..i+1]) <= FramesOf(cs[..EndOf(cs)])
    ensures WellFormed(cs[..i]) && !Malformed(cs[i]) ==> WellFormed(cs[..i+1])
  {
    hide FramesOf, CountsOf, EndOf, FrameOf, AddTo;
    OneMoreFrame(cs, i);
    OneMoreCount(cs, i);
    FramesOfPrefix(cs, i, EndOf(cs));
    if i < EndOf(cs) { FramesOfPrefix(cs, i + 1, EndOf(cs)); }
  }

  /** How the stream ends for the worker: by itself, with a completion, an error, a malformed chunk, or by breaking. */
  ghost predicate IsOutcome<T>(r: Result<T>, stream: Stream) {
    var n := EndOf(stream.chunks);
    if !WellFormed(stream.chunks[..n]) then r == Raised(Other)
    else if n < |stream.chunks| then (if stream.chunks[n].Error? then r == Raised(Invocation) else r.Ok?)
    else if stream.breaks then r == Raised(Client)
    else r.Ok?
  }

  lemma MalformedBefore(cs: seq<Chunk>, i: nat)
    requires i < |cs| && i <= EndOf(cs) && Malformed(cs[i])
    ensures !WellFormed(cs[..EndOf(cs)])
  {
    assert i < EndOf(cs);
    assert cs[i] in cs[..EndOf(cs)];
  }

  /**
   On normal return no error chunk and no malformed one comes before the first completion, the
   frames posted are those of the accepted chunks before it, in order, and the counts are theirs.
   Otherwise what was posted is a prefix of that.  Where no call raised, that is the stream's own doing.
   */
  method ProcessStreamChunks(w: Websocket, stream: Stream) returns (r: Result<Counts>, ghost posts: seq<Post>)
    modifies w`posts, w`faults
    ensures w.faults >= old(w.faults) && (w.faults == old(w.faults) ==> IsOutcome(r, stream))
    ensures w.posts == old(w.posts) + posts
    ensures var n := EndOf(stream.chunks);
            var before := stream.chunks[..n];
            && Frames(posts) <= FramesOf(before)
            && (r.Ok? ==> && WellFormed(before) && Frames(posts) == FramesOf(before) && TextDelivered(posts)
                          && (n < |stream.chunks| ==> stream.chunks[n].Completion?)
                          && (n == |stream.chunks| ==> !stream.breaks)
                          && r.value == CountsOf(before, n < |stream.chunks|))
  {
    hide FramesOf, Count, EndOf, Accepted;
    posts := [];
    var content, thinking, tool, websocket, completed := 0, 0, 0, 0, false;
    var i := 0;
    ghost var n := EndOf(stream.chunks);
    NothingForwarded(stream.chunks);
    while i < |stream.chunks|
      invariant 0 <= i <= n && w.faults == old(w.faults)
      invariant w.posts == old(w.posts) + posts && TextDelivered(posts)
      invariant WellFormed(stream.chunks[..i]) && Frames(posts) == FramesOf(stream.chunks[..i])
      invariant Counts(content, thinking, tool, websocket, false) == CountsOf(stream.chunks[..i], false)
    {
      var chunk := stream.chunks[i];
      OneMoreChunk(stream.chunks, i);
      if Accepted(chunk) {
        if chunk.Content? { content := content + 1; }
        else if chunk.Thinking? { thinking := thinking + 1; }
        else { tool := tool + 1; }
        websocket := websocket + 1;
        ghost var post;
        var raises;
        raises, post := ForwardChunk(w, chunk);
        FramesAppend(posts, post);
        posts := posts + post;
        if raises {
          if Malformed(chunk) { MalformedBefore(stream.chunks, i); }
          return Raised(Other), posts;
        }
      } else if chunk.Error? {
        return Raised(Invocation), posts;
      } else if chunk.Completion? {
        completed := true;
        break;
      }
      i := i + 1;
    }
    if i == |stream.chunks| && stream.breaks { return Raised(Client), posts; }
    r := Ok(Counts(content, thinking, tool, websocket, completed));
  }

  // ---------- The end token ----------

  ghost predicate SpellsEnd(c: Chunk) {
    c.Content? && c.text == END_TOKEN
  }

  lemma FrameIsEnd(c: Chunk)
    requires Accepted(c) && !Malformed(c)
    ensures FrameOf(c) == Text(END_TOKEN) <==> SpellsEnd(c)
  {
    if c.Thinking? { assert FrameOf(c).data[0] == '<'; }
  }

  lemma {:induction false} FramesHoldEnd(cs: seq<Chunk>)
    requires WellFormed(cs)
    ensures Text(END_TOKEN) in FramesOf(cs) <==> exists c <- cs :: SpellsEnd(c)
  {
    if cs != [] {
      var last := cs[|cs|-1];
      assert cs == cs[..|cs|-1] + [last];
      FramesHoldEnd(cs[..|cs|-1]);
      if Accepted(last) { FrameIsEnd(last); }
    }
  }

  /** The end token is sent exactly once if and only if no content chunk spells it. */
  lemma {:induction false} EndTokenOnce(cs: seq<Chunk>)
    requires WellFormed(cs)
    ensures multiset(FramesOf(cs) + [Text(END_TOKEN)])[Text(END_TOKEN)] == 1 <==> forall c <- cs :: !SpellsEnd(c)
  {
    FramesHoldEnd(cs);
    assert multiset(FramesOf(cs) + [Text(END_TOKEN)]) == multiset(FramesOf(cs)) + multiset{Text(END_TOKEN)};
  }

  // ---------- The invocation ----------

  datatype Quota = Within | Exceeded | CheckFailed

  const QUOTA_MESSAGE := "Monthly session quota exceeded for this subscription."

  method Attempt(w: Websocket, connection: string, quota: Quota, stream: Stream) returns (r: Result<()>, ghost posts: seq<Post>)
    modifies w
    ensures w.faults >= old(w.faults)
    ensures w.started == old(w.started) + [connection] || (w.started == old(w.started) && r.Raised? && posts == [])
    ensures w.faults == old(w.faults) ==> if quota.Exceeded? then r.Ok? else IsOutcome(r, stream)
    ensures w.posts == old(w.posts) + posts
    ensures w.alive - {connection} == old(w.alive) - {connection}
    ensures Frames(posts) <= AllFrames(quota, stream)
    ensures r.Ok? ==> Frames(posts) == AllFrames(quota, stream) && TextDelivered(posts)
    ensures r.Ok? && !quota.Exceeded? ==>
              var before := stream.chunks[..EndOf(stream.chunks)];
              WellFormed(before) && |posts| == CountsOf(before, false).websocket + 1
  {
    hide FramesOf, EndOf, Count, WellFormed;
    posts := [];
    var raises := w.Call();
    if raises { var f: Failure := *; return Raised(f), posts; }      // the client
    raises := w.StartKeepAlive(connection);
    if raises { return Raised(Other), posts; }
    raises := w.Call();
    if raises { return Raised(Client), posts; }                      // the runtime user
    if quota.Exceeded? {
      raises := w.SendMessage(QUOTA_MESSAGE);
      posts := [Post(Text(QUOTA_MESSAGE), !raises)];
      if raises { return Raised(Other), posts; }
    } else {
      raises := w.Call();
      if raises { var f: Failure := *; return Raised(f), posts; }    // the agent
      var counts;
      counts, posts := ProcessStreamChunks(w, stream);
      FramesLength(stream.chunks[..EndOf(stream.chunks)]);
      if counts.Raised? { return Raised(counts.failure), posts; }
    }
    raises := w.SendMessage(END_TOKEN);
    FramesAppend(posts, [Post(Text(END_TOKEN), !raises)]);
    posts := posts + [Post(Text(END_TOKEN), !raises)];
    if raises { return Raised(Other), posts; }
    r := Ok(());                                                     // the metering is best-effort
  }

  /** Everything an invocation sends: the quota notice or the accepted chunks, and the end token. */
  function AllFrames(quota: Quota, stream: Stream): seq<Frame> {
    (if quota.Exceeded? then [Text(QUOTA_MESSAGE)] else FramesOf(stream.chunks[..EndOf(stream.chunks)])) + [Text(END_TOKEN)]
  }

  /** One frame for each chunk counted. */
  lemma {:induction false} FramesLength(cs: seq<Chunk>)
    ensures WellFormed(cs) ==> |FramesOf(cs)| == CountsOf(cs, false).websocket
  {
    if cs != [] {
      FramesLength(cs[..|cs|-1]);
      OneMoreCount(cs, |cs| - 1);
      assert cs[..|cs|] == cs;
    }
  }

  /** What the stream makes of an invocation: the worker's own error and a malformed chunk become invocation errors. */
  ghost predicate IsRaised(raised: Option<Failure>, stream: Stream) {
    var n := EndOf(stream.chunks);
    if !WellFormed(stream.chunks[..n]) || (n < |stream.chunks| && stream.chunks[n].Error?) then raised == Some(Invocation)
    else if n == |stream.chunks| && stream.breaks then raised == Some(Client)
    else raised.None?
  }

  /**
   On normal return the end token was sent last, after the frames of the accepted chunks, and as many
   messages as were counted.  Keep-alive is stopped on every path, and no unexpected error gets out.
   */
  method InvokeAgentCore(w: Websocket, connection: string, quota: Quota, stream: Stream)
    returns (raised: Option<Failure>, ghost posts: seq<Post>)
    modifies w
    ensures w.posts == old(w.posts) + posts
    ensures w.alive == old(w.alive) - {connection}
    ensures raised != Some(Other)
    ensures w.faults >= old(w.faults)
    ensures w.started == old(w.started) + [connection] || (w.started == old(w.started) && raised.Some? && posts == [])
    ensures w.faults == old(w.faults) ==>
              if quota.Exceeded? then raised.None? else IsRaised(raised, stream)
    ensures Frames(posts) <= AllFrames(quota, stream)
    ensures raised.None? ==> Frames(posts) == AllFrames(quota, stream) && TextDelivered(posts)
    ensures raised.None? ==> posts != [] && posts[|posts|-1] == Post(Text("##END_CONVERSATION##"), true)
    ensures raised.None? && quota.Exceeded? ==>
              Frames(posts) == [Text("Monthly session quota exceeded for this subscription."), Text("##END_CONVERSATION##")]
    ensures raised.None? && !quota.Exceeded? ==>
              var before := stream.chunks[..EndOf(stream.chunks)];
              WellFormed(before) && |posts| == CountsOf(before, false).websocket + 1
  {
    hide FramesOf, EndOf, Count, WellFormed;
    var r;
    r, posts := Attempt(w, connection, quota, stream);
    if r.Ok? {
      assert Frames(posts)[|posts|-1] == Text(END_TOKEN);
      assert posts[|posts|-1] in posts;
    }
    raised := match r
      case Ok(_) => None
      case Raised(Other) => Some(Invocation)
      case Raised(f) => Some(f);
    w.StopKeepAlive(connection);
  }
}
