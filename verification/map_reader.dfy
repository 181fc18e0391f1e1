/** The life cycle of one map load: the reader's `mapLoadingInProcess` flag,
    the map being created, and the node builder's new-id table, around the
    three collaborators a load calls (the XML reader, the node builder's
    reset, and the read manager's completion listeners). */
module MapReader {
  import opened Wrappers

  /** Whatever a load throws: a parse error, an I/O error or a runtime
      exception of a collaborator. */
  datatype LoadError = LoadError(message: string)

  /** The part of the node builder the reader sees: the top node it built
      (possibly null) and the table of node ids renamed during the load. */
  datatype NodeBuilder<N> = NodeBuilder(mapChild: Option<N>, newIds: map<string, string>)

  /** What parsing a document leaves behind: the builder as the parse left it
      and the exception it threw, if any. */
  datatype LoadOutcome<N> = LoadOutcome(builder: NodeBuilder<N>, error: Option<LoadError>)

  /** The collaborators of a load, as functions. `load` is given the input,
      the map being created and the loading flag (the node builder holds the
      reader and may query both) and the current builder; `reset` is given
      the loading flag and the builder; `readingCompleted` is given the root
      and the new-id table and may throw. */
  datatype Collaborators<!M, !N, !In> = Collaborators(
    load: (In, Option<M>, bool, NodeBuilder<N>) -> LoadOutcome<N>,
    reset: (bool, NodeBuilder<N>) -> NodeBuilder<N>,
    readingCompleted: (Option<N>, map<string, string>) -> Option<LoadError>)

  /** A call made to a collaborator, with what it could observe. */
  datatype Call<M, N, In> =
    | LoadCall(input: In, createdMap: Option<M>, loading: bool)
    | ResetCall(loading: bool)
    | ReadingCompletedCall(root: Option<N>, newIds: map<string, string>, loading: bool)

  /** The reader's state, with the calls made so far. */
  datatype Reader<M, N, In> = Reader(
    createdMap: Option<M>,
    mapLoadingInProcess: bool,
    nodeBuilder: NodeBuilder<N>,
    calls: seq<Call<M, N, In>>)

  /** The state after an operation and what it returned or threw. */
  datatype Step<M, N, In, T> = Step(state: Reader<M, N, In>, result: Result<T, LoadError>)

  /** `NodeTreeCreator.start`: remember the map being created. */
  function Start<M, N, In>(r: Reader<M, N, In>, m: M): Reader<M, N, In> {
    r.(createdMap := Some(m))
  }

  /** `nodeTreeCreator(map)`: a creator that has been started on `map`, so the
      reader's created map is `map` afterwards and nothing else changed. */
  function NodeTreeCreator<M, N, In>(r: Reader<M, N, In>, m: M): (r': Reader<M, N, In>)
    ensures r'.createdMap == Some(m)
    ensures r'.mapLoadingInProcess == r.mapLoadingInProcess
    ensures r'.nodeBuilder == r.nodeBuilder && r'.calls == r.calls
  {
    Start(r, m)
  }

  /** `NodeTreeCreator.create`: parse the input, take the builder's map child,
      then reset the builder. If the parse throws, the builder is left as the
      parse left it and not reset. */
  function Create<M, N, In>(r: Reader<M, N, In>, c: Collaborators<M, N, In>, input: In)
    : (s: Step<M, N, In, Option<N>>)
    ensures var out := c.load(input, r.createdMap, r.mapLoadingInProcess, r.nodeBuilder);
            && (s.result.Success? <==> out.error.None?)
            && (s.result.Success? ==> s.result.value == out.builder.mapChild
                                      && s.state.nodeBuilder == c.reset(r.mapLoadingInProcess, out.builder)
                                      && s.state.calls == r.calls + [LoadCall(input, r.createdMap, r.mapLoadingInProcess),
                                                                     ResetCall(r.mapLoadingInProcess)])
            && (s.result.Failure? ==> s.result.error == out.error.value
                                      && s.state.nodeBuilder == out.builder
                                      && s.state.calls == r.calls + [LoadCall(input, r.createdMap, r.mapLoadingInProcess)])
    ensures s.state.createdMap == r.createdMap && s.state.mapLoadingInProcess == r.mapLoadingInProcess
  {
    var out := c.load(input, r.createdMap, r.mapLoadingInProcess, r.nodeBuilder);
    var loaded := r.(nodeBuilder := out.builder, calls := r.calls + [LoadCall(input, r.createdMap, r.mapLoadingInProcess)]);
    match out.error
    case Some(e) => Step(loaded, Failure(e))
    case None =>
      var node := out.builder.mapChild;
      Step(loaded.(nodeBuilder := c.reset(r.mapLoadingInProcess, out.builder),
                   calls := loaded.calls + [ResetCall(r.mapLoadingInProcess)]),
           Success(node))
  }

  /** `NodeTreeCreator.finish`: hand the root and the current new-id table to
      the completion listeners, then clear the table and forget the created
      map. If a listener throws, neither happens. */
  function Finish<M, N, In>(r: Reader<M, N, In>, c: Collaborators<M, N, In>, root: Option<N>)
    : (s: Step<M, N, In, ()>)
    ensures s.state.calls == r.calls + [ReadingCompletedCall(root, r.nodeBuilder.newIds, r.mapLoadingInProcess)]
    ensures s.result.Success? <==> c.readingCompleted(root, r.nodeBuilder.newIds).None?
    ensures s.result.Success? ==> s.state.createdMap.None? && s.state.nodeBuilder == r.nodeBuilder.(newIds := map[])
    ensures s.result.Failure? ==> s.state.createdMap == r.createdMap && s.state.nodeBuilder == r.nodeBuilder
    ensures s.state.mapLoadingInProcess == r.mapLoadingInProcess
  {
    var ids := r.nodeBuilder.newIds;
    var notified := r.(calls := r.calls + [ReadingCompletedCall(root, ids, r.mapLoadingInProcess)]);
    match c.readingCompleted(root, ids)
    case Some(e) => Step(notified, Failure(e))
    case None => Step(notified.(nodeBuilder := notified.nodeBuilder.(newIds := map[]), createdMap := None), Success(()))
  }

  /** `NodeTreeCreator.createNodeTreeFromXml`: start, create, finish, and
      return the node `create` produced; a failing `create` skips `finish`.
      In terms of the collaborators: it succeeds exactly when the parse and
      the completion listeners both succeed; it then returns the map child
      captured before the reset, the listeners received that root and the
      post-reset id table, and afterwards the table is empty and no map is
      being created. The loading flag is whatever the caller set. */
  function CreatorCreateNodeTree<M, N, In>(r: Reader<M, N, In>, c: Collaborators<M, N, In>, m: M, input: In)
    : (s: Step<M, N, In, Option<N>>)
    ensures s.state.mapLoadingInProcess == r.mapLoadingInProcess
    ensures var f := r.mapLoadingInProcess;
            var out := c.load(input, Some(m), f, r.nodeBuilder);
            var built := c.reset(f, out.builder);
            && (s.result.Success? <==> out.error.None? && c.readingCompleted(out.builder.mapChild, built.newIds).None?)
            && (s.result.Success? ==>
                  && s.state.nodeBuilder == built.(newIds := map[])
                  && s.state.calls == r.calls + [LoadCall(input, Some(m), f), ResetCall(f),
                                                 ReadingCompletedCall(out.builder.mapChild, built.newIds, f)])
    ensures var out := c.load(input, Some(m), r.mapLoadingInProcess, r.nodeBuilder);
            out.error.Some? ==>
              && s.result == Failure(out.error.value)
              && s.state.createdMap == Some(m)
              && forall i :: 0 <= i < |s.state.calls| ==> !s.state.calls[i].ReadingCompletedCall? || i < |r.calls|
    ensures var out := c.load(input, Some(m), r.mapLoadingInProcess, r.nodeBuilder);
            s.result.Success? ==> out.error.None? && s.result.value == out.builder.mapChild && s.state.createdMap.None?
  {
    var created := Create(Start(r, m), c, input);
    match created.result
    case Failure(e) => created
    case Success(node) =>
      var finished := Finish(created.state, c, node);
      match finished.result
      case Failure(e) => Step(finished.state, Failure(e))
      case Success(_) => Step(finished.state, Success(node))
  }

  /** A collaborator call that could observe the loading flag saw it set. */
  predicate SawLoading<M, N, In>(call: Call<M, N, In>) {
    match call
    case LoadCall(_, _, loading) => loading
    case ResetCall(loading) => loading
    case ReadingCompletedCall(_, _, loading) => loading
  }

  /** `MapReader.createNodeTreeFromXml`: the nested load runs with
      `mapLoadingInProcess` set, and the flag is cleared afterwards whether the
      load returned or threw. In terms of the collaborators: the load succeeds
      exactly when the parse and the completion listeners both succeed; it
      then returns the map child captured before the builder's reset, the
      listeners received that root and the post-reset id table, and
      afterwards the table is empty and no map is being created. Every
      collaborator called during the load sees the flag set. When a
      completion listener throws, the created map stays set and the id table
      is not cleared. */
  function ReaderCreateNodeTree<M, N, In>(r: Reader<M, N, In>, c: Collaborators<M, N, In>, m: M, input: In)
    : (s: Step<M, N, In, Option<N>>)
    ensures !s.state.mapLoadingInProcess
    ensures var out := c.load(input, Some(m), true, r.nodeBuilder);
            var built := c.reset(true, out.builder);
            && (s.result.Success? <==> out.error.None? && c.readingCompleted(out.builder.mapChild, built.newIds).None?)
            && (s.result.Success? ==>
                  && s.result.value == out.builder.mapChild
                  && s.state.createdMap.None?
                  && s.state.nodeBuilder == built.(newIds := map[])
                  && s.state.calls == r.calls + [LoadCall(input, Some(m), true), ResetCall(true),
                                                 ReadingCompletedCall(out.builder.mapChild, built.newIds, true)])
    ensures var out := c.load(input, Some(m), true, r.nodeBuilder);
            out.error.Some? ==>
              && s.result == Failure(out.error.value)
              && s.state.createdMap == Some(m)
              && s.state.nodeBuilder == out.builder
              && s.state.calls == r.calls + [LoadCall(input, Some(m), true)]
    ensures var out := c.load(input, Some(m), true, r.nodeBuilder);
            var built := c.reset(true, out.builder);
            out.error.None? && c.readingCompleted(out.builder.mapChild, built.newIds).Some? ==>
              && s.result == Failure(c.readingCompleted(out.builder.mapChild, built.newIds).value)
              && s.state.createdMap == Some(m)
              && s.state.nodeBuilder == built
    ensures && |r.calls| < |s.state.calls|
            && s.state.calls[..|r.calls|] == r.calls
            && s.state.calls[|r.calls|] == LoadCall(input, Some(m), true)
            && forall i :: |r.calls| <= i < |s.state.calls| ==> SawLoading(s.state.calls[i])
  {
    var inner := CreatorCreateNodeTree(r.(mapLoadingInProcess := true), c, m, input);
    Step(inner.state.(mapLoadingInProcess := false), inner.result)
  }

  /** Driving the creator by hand, as callers of `nodeTreeCreator(map)` do
      (`create`, then `finish` with the created node), ends in the same
      state, with the same outcome, as `NodeTreeCreator.createNodeTreeFromXml`. */
  lemma CallerDrivenLoadAgrees<M, N, In>(r: Reader<M, N, In>, c: Collaborators<M, N, In>, m: M, input: In)
    ensures var created := Create(NodeTreeCreator(r, m), c, input);
            var s := CreatorCreateNodeTree(r, c, m, input);
            && (created.result.Failure? ==> s == created)
            && (created.result.Success? ==>
                  var finished := Finish(created.state, c, created.result.value);
                  && s.state == finished.state
                  && (s.result.Success? <==> finished.result.Success?)
                  && (s.result.Success? ==> s.result.value == created.result.value)
                  && (s.result.Failure? ==> s.result.error == finished.result.error))
  {
  }

  /** The reader is idle: no load in progress, no map being created and an
      empty new-id table. */
  predicate Idle<M, N, In>(r: Reader<M, N, In>) {
    !r.mapLoadingInProcess && r.createdMap.None? && r.nodeBuilder.newIds == map[]
  }

  /** A load that returns leaves the reader idle, whatever state it started
      in; a load that throws leaves it not idle, still holding the map. */
  lemma LoadReturnsToIdle<M, N, In>(r: Reader<M, N, In>, c: Collaborators<M, N, In>, m: M, input: In)
    ensures var s := ReaderCreateNodeTree(r, c, m, input);
            && (s.result.Success? ==> Idle(s.state))
            && (s.result.Failure? ==> !Idle(s.state) && s.state.createdMap == Some(m))
  {
  }
}
