/** Observing a wrapped handler: the status-logging response writer
    (agent.go) and the function-or-handler proxy (http_metrics.go). A
    handler is abstracted as the sequence of status codes it passes to
    `WriteHeader`; whatever else it writes does not reach the counters. */
module ResponseCapture {
  import opened Common

  /** The status every response is recorded with unless the handler sets one. */
  const DefaultStatus: int := 200

  /** What a handler does to its response writer: its `WriteHeader` calls,
      in order. */
  type Behaviour = seq<int>

  /** The status-logging writer: the status it will report, and every code
      passed on to the inner writer, in order. */
  datatype StatusWriter = StatusWriter(status: int, forwarded: seq<int>)

  /** The writer a wrapped handler function is given for each request. */
  function NewStatusWriter(): (w: StatusWriter)
    ensures w.status == DefaultStatus && w.forwarded == []
  {
    StatusWriter(DefaultStatus, [])
  }

  function WriteHeader(w: StatusWriter, code: int): (r: StatusWriter)
    ensures r.status == code
    ensures |r.forwarded| == |w.forwarded| + 1 && r.forwarded[|w.forwarded|] == code
    ensures r.forwarded[..|w.forwarded|] == w.forwarded
  {
    StatusWriter(code, w.forwarded + [code])
  }

  /** The writer after the handler's header writes, one call at a time. */
  function Perform(w: StatusWriter, calls: Behaviour): (r: StatusWriter)
    decreases |calls|
  {
    if calls == [] then w else Perform(WriteHeader(w, calls[0]), calls[1..])
  }

  /** The writer ends up reporting the last code written, or what it already
      held if nothing was written; every call reaches the inner writer,
      unchanged and in order. */
  lemma {:induction false} PerformEffect(w: StatusWriter, calls: Behaviour)
    ensures Perform(w, calls).status == if calls == [] then w.status else calls[|calls| - 1]
    ensures Perform(w, calls).forwarded == w.forwarded + calls
    decreases |calls|
  {
    if calls != [] {
      PerformEffect(WriteHeader(w, calls[0]), calls[1..]);
      assert w.forwarded + [calls[0]] + calls[1..] == w.forwarded + calls;
    }
  }

  /** The status recorded for a handler: 200 when it never sets one,
      otherwise the code of its last `WriteHeader` call. */
  lemma CapturedStatus(calls: Behaviour)
    ensures Perform(NewStatusWriter(), calls).status ==
              if calls == [] then DefaultStatus else calls[|calls| - 1]
    ensures Perform(NewStatusWriter(), calls).forwarded == calls
  {
    PerformEffect(NewStatusWriter(), calls);
  }

  /** The instrumenting proxy: the wrapped original, held in one of two slots,
      and a flag saying which slot serving uses. The constructors below fill
      exactly the slot the flag selects; nothing in the type forces it. */
  datatype Proxy = Proxy(
    originalHandler: Option<Behaviour>,
    originalHandlerFunc: Option<Behaviour>,
    isFunc: bool)

  function NewHTTPHandlerFunc(h: Behaviour): (p: Proxy)
    ensures p.isFunc && p.originalHandlerFunc == Some(h) && p.originalHandler == None
  {
    Proxy(None, Some(h), true)
  }

  function NewHTTPHandler(h: Behaviour): (p: Proxy)
    ensures !p.isFunc && p.originalHandler == Some(h) && p.originalHandlerFunc == None
  {
    Proxy(Some(h), None, false)
  }

  /** Which original a proxy invoked, and the writer afterwards. */
  datatype Dispatch =
    | CalledFunc(writer: StatusWriter)
    | CalledHandler(writer: StatusWriter)
    | NilCall  // the selected original is missing: the call panics

  /** Serving through the proxy; the latency it also measures is not part of
      this model. */
  function ServeHTTP(p: Proxy, w: StatusWriter): (r: Dispatch)
    ensures r.CalledFunc? <==> p.isFunc && p.originalHandlerFunc.Some?
    ensures r.CalledHandler? <==> !p.isFunc && p.originalHandler.Some?
    ensures r.CalledFunc? ==> r.writer == Perform(w, p.originalHandlerFunc.value)
    ensures r.CalledHandler? ==> r.writer == Perform(w, p.originalHandler.value)
  {
    if p.isFunc then
      if p.originalHandlerFunc.Some? then CalledFunc(Perform(w, p.originalHandlerFunc.value))
      else NilCall
    else
      if p.originalHandler.Some? then CalledHandler(Perform(w, p.originalHandler.value))
      else NilCall
  }

  /** A proxy built from a function calls that function; one built from a
      handler calls that handler; neither ever calls the other kind. */
  lemma DispatchMatchesConstructor(h: Behaviour, w: StatusWriter)
    ensures ServeHTTP(NewHTTPHandlerFunc(h), w) == CalledFunc(Perform(w, h))
    ensures ServeHTTP(NewHTTPHandler(h), w) == CalledHandler(Perform(w, h))
  {
  }
}
