/** From one captured call to its hash-linked chain: one node per request message, injected
    context as side branches that nothing hangs off, then the response. */
module Chain {
  import opened Llm
  import opened DeriveModel

  datatype Message = Message(role: Role, content: seq<ContentBlock>)

  datatype Request = Request(messages: seq<Message>, model: string)

  datatype Reply = Reply(message: Message, model: string, stopReason: string, usage: Option<Usage>)

  datatype Context = Context(provider: string, agent: string, thread: string)

  /** chainOptions. messageKinds and capturedAt may be shorter than the request. */
  datatype Options = Options(
    kind: Kind,
    classifyInjected: bool,
    messageKinds: seq<Option<Kind>>,
    capturedAt: seq<Option<int>>)

  /** What the chain takes as given: the injected-context classifier, the projection the
      hash is computed over, and the normaliser of verbatim Responses items. */
  datatype Rules = Rules(
    injected: Message -> Option<string>,
    project: seq<ContentBlock> -> seq<ContentBlock>,
    normalize: seq<ContentBlock> -> seq<ContentBlock>)

  /** A node before the deriver retains it; createdAt None is Go's zero time. */
  datatype ChainNode = ChainNode(
    hash: Hash,
    bucket: Bucket,
    kind: Kind,
    thread: string,
    stopReason: string,
    usage: Option<Usage>,
    createdAt: Option<int>)

  function BucketOf(m: Message, model: string, ctx: Context): Bucket {
    Bucket(m.role, m.content, model, ctx.provider, ctx.agent)
  }

  function DigestOf(rules: Rules, m: Message): Digest {
    Digest(m.role, rules.project(m.content))
  }

  function Stamp(opts: Options, i: nat): Option<int> {
    if i < |opts.capturedAt| then opts.capturedAt[i] else None
  }

  predicate OnSpine(rules: Rules, opts: Options, m: Message) {
    !opts.classifyInjected || rules.injected(m).None?
  }

  function KindAt(rules: Rules, opts: Options, m: Message, i: nat): Kind {
    if !OnSpine(rules, opts, m) then Injected(rules.injected(m).value)
    else if i < |opts.messageKinds| && opts.messageKinds[i].Some? then opts.messageKinds[i].value
    else opts.kind
  }

  function ReplyMessage(rules: Rules, ctx: Context, r: Reply): Message {
    if ctx.provider == "openai" then r.message.(content := rules.normalize(r.message.content)) else r.message
  }

  // ---------------------------------------------------------------- the reference

  /** The messages that advance the chain. */
  ghost function Spine(rules: Rules, opts: Options, ms: seq<Message>): seq<Message> {
    if ms == [] then []
    else
      var m := ms[|ms| - 1];
      Spine(rules, opts, ms[..|ms| - 1]) + (if OnSpine(rules, opts, m) then [m] else [])
  }

  /** The hash of a conversation: a path of digests, oldest at the root. */
  ghost function PathHash(rules: Rules, ms: seq<Message>): Option<Hash> {
    if ms == [] then None
    else Some(H(DigestOf(rules, ms[|ms| - 1]), PathHash(rules, ms[..|ms| - 1])))
  }

  /** Every node hangs off the conversation before it, injected context left out. */
  ghost function NodeAt(rules: Rules, opts: Options, ctx: Context, req: Request, i: nat): ChainNode
    requires i < |req.messages|
  {
    var m := req.messages[i];
    ChainNode(H(DigestOf(rules, m), PathHash(rules, Spine(rules, opts, req.messages[..i]))),
              BucketOf(m, req.model, ctx), KindAt(rules, opts, m, i), ctx.thread, "", None, Stamp(opts, i))
  }

  ghost function ReplyNode(rules: Rules, opts: Options, ctx: Context, req: Request, r: Reply): ChainNode {
    var m := ReplyMessage(rules, ctx, r);
    ChainNode(H(DigestOf(rules, m), PathHash(rules, Spine(rules, opts, req.messages))),
              BucketOf(m, r.model, ctx), opts.kind, ctx.thread, r.stopReason, r.usage, Stamp(opts, |req.messages|))
  }

  ghost predicate IsChain(rules: Rules, opts: Options, ctx: Context, req: Request, r: Reply, chain: seq<ChainNode>) {
    && |chain| == |req.messages| + 1
    && (forall i | 0 <= i < |req.messages| :: chain[i] == NodeAt(rules, opts, ctx, req, i))
    && chain[|req.messages|] == ReplyNode(rules, opts, ctx, req, r)
  }

  /** A chain carries its turn: content, role and model of every message and of the reply,
      times as captured, usage and stop reason on the reply alone, and kinds from the
      classifier first, then the per-message labels, then the call. */
  lemma ChainCarriesTheTurn(rules: Rules, opts: Options, ctx: Context, req: Request, r: Reply, chain: seq<ChainNode>, i: nat)
    requires IsChain(rules, opts, ctx, req, r, chain) && i < |chain|
    ensures chain[i].thread == ctx.thread && chain[i].bucket.provider == ctx.provider && chain[i].bucket.agent == ctx.agent
    ensures match chain[i].createdAt
            case Some(at) => i < |opts.capturedAt| && opts.capturedAt[i] == Some(at)
            case None => i >= |opts.capturedAt| || opts.capturedAt[i].None?
    ensures i == |req.messages| ==>
              && chain[i].bucket.role == r.message.role && chain[i].bucket.model == r.model
              && chain[i].bucket.content == (if ctx.provider == "openai" then rules.normalize(r.message.content) else r.message.content)
              && chain[i].kind == opts.kind && chain[i].stopReason == r.stopReason && chain[i].usage == r.usage
    ensures i < |req.messages| ==>
              var m := req.messages[i];
              && chain[i].bucket.role == m.role && chain[i].bucket.content == m.content && chain[i].bucket.model == req.model
              && chain[i].stopReason == "" && chain[i].usage == None
              && (forall name :: opts.classifyInjected && rules.injected(m) == Some(name) ==> chain[i].kind == Injected(name))
              && (!opts.classifyInjected || rules.injected(m) == None ==>
                    if exists kind :: i < |opts.messageKinds| && opts.messageKinds[i] == Some(kind)
                    then opts.messageKinds[i] == Some(chain[i].kind) else chain[i].kind == opts.kind)
  {
    hide Spine, PathHash;
  }

  // ---------------------------------------------------------------- the algorithm

  /** turnChain */
  method TurnChain(rules: Rules, opts: Options, ctx: Context, req: Option<Request>, resp: Option<Reply>)
    returns (chain: seq<ChainNode>)
    ensures req.None? || resp.None? ==> chain == []
    ensures req.Some? && resp.Some? ==> IsChain(rules, opts, ctx, req.value, resp.value, chain)
  {
    hide Spine, PathHash;
    chain := [];
    if req.None? || resp.None? { return; }
    var msgs, model := req.value.messages, req.value.model;
    var parent: Option<Hash> := None;
    var i := 0;
    NothingYet(rules, opts, msgs);
    while i < |msgs|
      invariant 0 <= i <= |msgs| && |chain| == i
      invariant forall j | 0 <= j < i :: chain[j] == NodeAt(rules, opts, ctx, req.value, j)
      invariant parent == PathHash(rules, Spine(rules, opts, msgs[..i]))
    {
      var msg := msgs[i];
      SpineSnoc(rules, opts, msgs, i);
      var node := ChainNode(H(Digest(msg.role, rules.project(msg.content)), parent), BucketOf(msg, model, ctx),
                            opts.kind, ctx.thread, "", None, None);
      if i < |opts.capturedAt| { node := node.(createdAt := opts.capturedAt[i]); }
      if opts.classifyInjected && rules.injected(msg).Some? {
        node := node.(kind := Injected(rules.injected(msg).value));
        chain := chain + [node];
      } else {
        if i < |opts.messageKinds| && opts.messageKinds[i].Some? {
          node := node.(kind := opts.messageKinds[i].value);
        }
        chain := chain + [node];
        PathSnoc(rules, Spine(rules, opts, msgs[..i]), msg);
        parent := Some(node.hash);
      }
      i := i + 1;
    }
    assert msgs[..i] == msgs;
    var r := resp.value;
    var content := r.message.content;
    if ctx.provider == "openai" { content := rules.normalize(content); }
    var leaf := ChainNode(H(Digest(r.message.role, rules.project(content)), parent),
                          Bucket(r.message.role, content, r.model, ctx.provider, ctx.agent),
                          opts.kind, ctx.thread, r.stopReason, r.usage, None);
    if |opts.capturedAt| > |msgs| { leaf := leaf.(createdAt := opts.capturedAt[|msgs|]); }
    chain := chain + [leaf];
  }

  lemma NothingYet(rules: Rules, opts: Options, ms: seq<Message>)
    ensures PathHash(rules, Spine(rules, opts, ms[..0])) == None && Spine(rules, opts, ms[..0]) == []
  {
  }

  lemma SpineSnoc(rules: Rules, opts: Options, ms: seq<Message>, i: nat)
    requires i < |ms|
    ensures Spine(rules, opts, ms[..i + 1])
         == Spine(rules, opts, ms[..i]) + (if OnSpine(rules, opts, ms[i]) then [ms[i]] else [])
    ensures !OnSpine(rules, opts, ms[i]) ==> Spine(rules, opts, ms[..i + 1]) == Spine(rules, opts, ms[..i])
  {
    assert ms[..i + 1][..i] == ms[..i];
  }

  lemma PathSnoc(rules: Rules, ms: seq<Message>, m: Message)
    ensures PathHash(rules, ms + [m]) == Some(H(DigestOf(rules, m), PathHash(rules, ms)))
  {
    assert (ms + [m])[..|ms|] == ms;
  }

  // ---------------------------------------------------------------- drift does not fork

  lemma {:induction false} SpineConcat(rules: Rules, opts: Options, a: seq<Message>, b: seq<Message>)
    ensures Spine(rules, opts, a + b) == Spine(rules, opts, a) + Spine(rules, opts, b)
  {
    if b == [] {
      assert a + b == a;
    } else {
      var n := |b| - 1;
      SpineConcat(rules, opts, a, b[..n]);
      assert (a + b)[..|a + b| - 1] == a + b[..n];
    }
  }

  lemma {:induction false} InjectedOnly(rules: Rules, opts: Options, x: seq<Message>)
    requires forall m | m in x :: !OnSpine(rules, opts, m)
    ensures Spine(rules, opts, x) == []
  {
    if x != [] {
      assert x[|x| - 1] in x;
      InjectedOnly(rules, opts, x[..|x| - 1]);
    }
  }

  /** The hashes of the chain's spine nodes, the response last. */
  ghost function SpineHashes(chain: seq<ChainNode>, ms: seq<Message>, rules: Rules, opts: Options, n: nat): seq<Hash>
    requires n <= |ms| < |chain|
  {
    if n == 0 then []
    else SpineHashes(chain, ms, rules, opts, n - 1) + (if OnSpine(rules, opts, ms[n - 1]) then [chain[n - 1].hash] else [])
  }

  /** Position k of the spine is the hash of the first k+1 spine messages, wherever in the
      request they stood and whatever stood between them. */
  lemma {:induction false} SpineHashIsPath(rules: Rules, opts: Options, ctx: Context, req: Request, r: Reply,
                                           chain: seq<ChainNode>, n: nat)
    requires IsChain(rules, opts, ctx, req, r, chain) && n <= |req.messages|
    ensures var hashes, spine := SpineHashes(chain, req.messages, rules, opts, n), Spine(rules, opts, req.messages[..n]);
            |hashes| == |spine| && forall k | 0 <= k < |spine| :: Some(hashes[k]) == PathHash(rules, spine[..k + 1])
  {
    hide PathHash, Spine, IsChain;
    ChainLength(rules, opts, ctx, req, r, chain);
    if n == 0 {
      NothingYet(rules, opts, req.messages);
    } else {
      SpineHashIsPath(rules, opts, ctx, req, r, chain, n - 1);
      SpineSnoc(rules, opts, req.messages, n - 1);
      var before, spine := Spine(rules, opts, req.messages[..n - 1]), Spine(rules, opts, req.messages[..n]);
      var hashes := SpineHashes(chain, req.messages, rules, opts, n);
      if OnSpine(rules, opts, req.messages[n - 1]) {
        PathSnoc(rules, before, req.messages[n - 1]);
        ChainAt(rules, opts, ctx, req, r, chain, n - 1);
        assert spine[..|before| + 1] == before + [req.messages[n - 1]];
      }
      forall k | 0 <= k < |spine| ensures Some(hashes[k]) == PathHash(rules, spine[..k + 1]) {
        if k < |before| { assert spine[..k + 1] == before[..k + 1]; }
      }
    }
  }

  lemma ChainLength(rules: Rules, opts: Options, ctx: Context, req: Request, r: Reply, chain: seq<ChainNode>)
    requires IsChain(rules, opts, ctx, req, r, chain)
    ensures |chain| == |req.messages| + 1
  {
  }

  lemma ChainAt(rules: Rules, opts: Options, ctx: Context, req: Request, r: Reply, chain: seq<ChainNode>, i: nat)
    requires IsChain(rules, opts, ctx, req, r, chain) && i < |req.messages|
    ensures chain[i] == NodeAt(rules, opts, ctx, req, i)
  {
  }

  /** Inserting (x empty), deleting (y empty) or editing injected context anywhere in a
      request changes no spine hash and not the response's, whatever the routing. */
  lemma InjectedDriftIsInert(rules: Rules, opts: Options, a: seq<Message>, x: seq<Message>, y: seq<Message>,
                             b: seq<Message>,
                             ctx1: Context, model1: string, ctx2: Context, model2: string, r: Reply,
                             chain1: seq<ChainNode>, chain2: seq<ChainNode>)
    requires forall m | m in x + y :: !OnSpine(rules, opts, m)
    requires ctx1.provider == ctx2.provider
    requires IsChain(rules, opts, ctx1, Request(a + x + b, model1), r, chain1)
    requires IsChain(rules, opts, ctx2, Request(a + y + b, model2), r, chain2)
    ensures SpineHashes(chain1, a + x + b, rules, opts, |a + x + b|) == SpineHashes(chain2, a + y + b, rules, opts, |a + y + b|)
    ensures chain1[|chain1| - 1].hash == chain2[|chain2| - 1].hash
  {
    hide Spine, PathHash, SpineHashes;
    SpineConcat(rules, opts, a + x, b);
    SpineConcat(rules, opts, a, x);
    SpineConcat(rules, opts, a + y, b);
    SpineConcat(rules, opts, a, y);
    InjectedOnly(rules, opts, x);
    InjectedOnly(rules, opts, y);
    assert (a + x + b)[..|a + x + b|] == a + x + b && (a + y + b)[..|a + y + b|] == a + y + b;
    SpineHashIsPath(rules, opts, ctx1, Request(a + x + b, model1), r, chain1, |a + x + b|);
    SpineHashIsPath(rules, opts, ctx2, Request(a + y + b, model2), r, chain2, |a + y + b|);
  }

  // ---------------------------------------------------------------- sharing is exact

  ghost predicate SameDigests(rules: Rules, a: seq<Message>, b: seq<Message>) {
    |a| == |b| && forall j | 0 <= j < |a| :: DigestOf(rules, a[j]) == DigestOf(rules, b[j])
  }

  /** A hash names one conversation: digest for digest, from the root. */
  lemma {:induction false} PathHashIsExact(rules: Rules, a: seq<Message>, b: seq<Message>)
    ensures PathHash(rules, a) == PathHash(rules, b) <==> SameDigests(rules, a, b)
  {
    if a != [] && b != [] {
      var m, n := |a| - 1, |b| - 1;
      PathHashIsExact(rules, a[..m], b[..n]);
      if SameDigests(rules, a, b) {
        assert SameDigests(rules, a[..m], b[..n]);
      }
      if SameDigests(rules, a[..m], b[..n]) && DigestOf(rules, a[m]) == DigestOf(rules, b[n]) {
        forall j | 0 <= j < |a| ensures DigestOf(rules, a[j]) == DigestOf(rules, b[j]) {
          if j < m { assert DigestOf(rules, a[..m][j]) == DigestOf(rules, b[..n][j]); }
        }
      }
    }
  }

  /** Two calls share a spine node exactly when it stands at the same depth and every spine
      message up to it agrees in role and projected content. Model, provider and agent
      never keep two calls apart. */
  lemma SpineSharedExactly(rules: Rules, opts1: Options, ctx1: Context, req1: Request, r1: Reply,
                           chain1: seq<ChainNode>,
                           opts2: Options, ctx2: Context, req2: Request, r2: Reply, chain2: seq<ChainNode>, k: nat, l: nat)
    requires IsChain(rules, opts1, ctx1, req1, r1, chain1) && IsChain(rules, opts2, ctx2, req2, r2, chain2)
    requires k < |Spine(rules, opts1, req1.messages)| && l < |Spine(rules, opts2, req2.messages)|
    ensures var h1 := SpineHashes(chain1, req1.messages, rules, opts1, |req1.messages|);
            var h2 := SpineHashes(chain2, req2.messages, rules, opts2, |req2.messages|);
            var s1, s2 := Spine(rules, opts1, req1.messages), Spine(rules, opts2, req2.messages);
            |h1| == |s1| && |h2| == |s2|
            && (h1[k] == h2[l] <==> k == l && forall j | 0 <= j <= k :: DigestOf(rules, s1[j]) == DigestOf(rules, s2[j]))
  {
    hide Spine, PathHash, SpineHashes, IsChain;
    var s1, s2 := Spine(rules, opts1, req1.messages), Spine(rules, opts2, req2.messages);
    assert req1.messages[..|req1.messages|] == req1.messages && req2.messages[..|req2.messages|] == req2.messages;
    SpineHashIsPath(rules, opts1, ctx1, req1, r1, chain1, |req1.messages|);
    SpineHashIsPath(rules, opts2, ctx2, req2, r2, chain2, |req2.messages|);
    PathHashIsExact(rules, s1[..k + 1], s2[..l + 1]);
    assert SameDigests(rules, s1[..k + 1], s2[..l + 1])
       <==> k == l && forall j | 0 <= j <= k :: DigestOf(rules, s1[j]) == DigestOf(rules, s2[j]);
  }

  /** When the next call re-sends the whole exchange, the answer recorded as the leaf of the
      first call and the same answer re-sent as history are one node. */
  lemma ReplyIsRecognised(rules: Rules, opts: Options, ctx1: Context, req1: Request, r1: Reply, chain1: seq<ChainNode>,
                          ctx2: Context, req2: Request, r2: Reply, chain2: seq<ChainNode>)
    requires IsChain(rules, opts, ctx1, req1, r1, chain1) && IsChain(rules, opts, ctx2, req2, r2, chain2)
    requires var s1, s2 := Spine(rules, opts, req1.messages), Spine(rules, opts, req2.messages);
             |s1| < |s2| && SameDigests(rules, s1 + [ReplyMessage(rules, ctx1, r1)], s2[..|s1| + 1])
    ensures var n := |Spine(rules, opts, req1.messages)|;
            var h2 := SpineHashes(chain2, req2.messages, rules, opts, |req2.messages|);
            n < |h2| && h2[n] == chain1[|chain1| - 1].hash
  {
    hide Spine, PathHash, SpineHashes;
    var s1, s2 := Spine(rules, opts, req1.messages), Spine(rules, opts, req2.messages);
    assert req2.messages[..|req2.messages|] == req2.messages;
    SpineHashIsPath(rules, opts, ctx2, req2, r2, chain2, |req2.messages|);
    PathHashIsExact(rules, s1 + [ReplyMessage(rules, ctx1, r1)], s2[..|s1| + 1]);
    PathSnoc(rules, s1, ReplyMessage(rules, ctx1, r1));
  }
}
