/**
  The page-world half of the custom web view's WebChannel transport: a facade
  with send and onmessage that talks to the bridge world through DOM events.
  Messages sent before the bridge is ready are queued and flushed, oldest first,
  by a single MutationObserver once the shared ready flag reads '1'.

  The observer's asynchronous callback is the explicit step ObserverFires. The
  callback waitForBridge is given is always flushPendingMessages, the only one
  the script passes.
*/
module BootstrapPage {
  import opened Common
  import opened BootstrapBridge

  /** The JavaScript values the page may assign to onmessage. */
  datatype JsValue = JsNull | JsUndefined | JsFunction(id: nat) | JsString(s: string) | JsNumber(n: int) | JsObject(id: nat)

  /** One call of the page's onmessage handler with {data}. */
  datatype HandlerCall = HandlerCall(handler: nat, data: string)

  /** The outputs of dispatching each message in turn. */
  function HandleEach(ls: seq<BridgeListener>, msgs: seq<string>): seq<BridgeOutput>
  {
    if msgs == [] then []
    else HandleEach(ls, msgs[..|msgs| - 1]) + HandleAll(ls, msgs[|msgs| - 1])
  }

  /** Dispatching one more queued message extends the outputs by that message's. */
  lemma HandleEachSnoc(ls: seq<BridgeListener>, queued: seq<string>, k: nat)
    requires k < |queued|
    ensures queued[..k + 1] == queued[..k] + [queued[k]]
    ensures HandleEach(ls, queued[..k + 1]) == HandleEach(ls, queued[..k]) + HandleAll(ls, queued[k])
  {
    assert queued[..k + 1][..k] == queued[..k];
  }

  /** The sequence facts one step of the flush loop needs: the queue's head is the
      next message, and dispatching it extends the requests and outputs so far. */
  lemma FlushStep(ls: seq<BridgeListener>, queued: seq<string>, k: nat,
                  requests0: seq<string>, outputs0: seq<BridgeOutput>)
    requires k < |queued|
    ensures queued[k..][0] == queued[k] && queued[k..][1..] == queued[k + 1..]
    ensures (requests0 + queued[..k]) + [queued[k]] == requests0 + queued[..k + 1]
    ensures (outputs0 + HandleEach(ls, queued[..k])) + HandleAll(ls, queued[k])
            == outputs0 + HandleEach(ls, queued[..k + 1])
  {
    HandleEachSnoc(ls, queued, k);
  }

  /** With one listener, flushing posts (or reports missing) each message in queue order. */
  lemma {:induction false} HandleEachSingle(l: BridgeListener, msgs: seq<string>)
    ensures |HandleEach([l], msgs)| == |msgs|
    ensures forall i :: 0 <= i < |msgs| ==> HandleEach([l], msgs)[i] == HandleRequest(l, msgs[i])
  {
    if msgs != [] {
      var front := msgs[..|msgs| - 1];
      HandleEachSingle(l, front);
      assert HandleEach([l], msgs) == HandleEach([l], front) + HandleAll([l], msgs[|msgs| - 1]);
    }
  }

  /** Dispatching two messages to one listener handles them in order. */
  lemma HandleEachPair(l: BridgeListener, first: string, second: string)
    ensures HandleEach([l], [first, second]) == [HandleRequest(l, first), HandleRequest(l, second)]
  {
    HandleEachSingle(l, [first, second]);
    var out := HandleEach([l], [first, second]);
    assert |out| == 2 && out[0] == HandleRequest(l, first) && out[1] == HandleRequest(l, second);
  }

  class PageTransport {
    const doc: Document
    /** _onmessage */
    var onmessage: JsValue
    /** _pendingMessages */
    var pending: seq<string>
    /** _bridgeObserver != null */
    var observing: bool
    /** The MutationObservers observing the document and not yet disconnected. */
    ghost var connected: nat
    /** The handler calls made so far. */
    var calls: seq<HandlerCall>

    /** At most one observer is connected, and it is the one _bridgeObserver holds. */
    ghost predicate SingleObserver()
      reads this
    {
      connected <= 1 && (connected == 1 <==> observing)
    }

    /** A single observer exists exactly while messages are waiting. */
    ghost predicate Valid()
      reads this, doc
    {
      doc.Valid() && SingleObserver() && (observing <==> pending != [])
    }

    /** The script's initial state. */
    constructor (doc: Document)
      requires doc.Valid()
      ensures Valid()
      ensures this.doc == doc && onmessage == JsNull && pending == [] && !observing && calls == []
      ensures connected == 0
    {
      this.doc := doc;
      onmessage, pending, observing, calls := JsNull, [], false, [];
      connected := 0;
    }

    /** isBridgeReady: the shared attribute equals '1'. */
    predicate IsBridgeReady()
      reads this, doc
    {
      doc.readyFlag == Some(ReadyValue)
    }

    /** flushPendingMessages: dispatch the queue, oldest first, until it is empty. */
    method FlushPendingMessages()
      modifies this, doc
      ensures pending == []
      ensures doc.requests == old(doc.requests) + old(pending)
      ensures doc.outputs == old(doc.outputs) + HandleEach(doc.requestListeners, old(pending))
      ensures doc.readyFlag == old(doc.readyFlag) && doc.requestListeners == old(doc.requestListeners)
      ensures doc.changes == old(doc.changes)
      ensures observing == old(observing) && onmessage == old(onmessage) && calls == old(calls)
      ensures connected == old(connected)
    {
      ghost var queued, requests0, outputs0 := pending, doc.requests, doc.outputs;
      ghost var ls := doc.requestListeners;
      ghost var k := 0;
      while |pending| > 0
        invariant 0 <= k <= |queued| && pending == queued[k..]
        invariant doc.requests == requests0 + queued[..k]
        invariant doc.outputs == outputs0 + HandleEach(ls, queued[..k])
        invariant doc.readyFlag == old(doc.readyFlag) && doc.requestListeners == ls
        invariant doc.changes == old(doc.changes)
        invariant observing == old(observing) && onmessage == old(onmessage) && calls == old(calls)
        invariant connected == old(connected)
      {
        var msg := pending[0];
        FlushStep(ls, queued, k, requests0, outputs0);
        pending := pending[1..];
        doc.DispatchRequest(msg);
        k := k + 1;
      }
      assert queued[..k] == queued;
    }

    /** waitForBridge(flushPendingMessages): flush at once when ready; otherwise make
        sure exactly one observer is waiting. */
    method WaitForBridge()
      requires SingleObserver()
      modifies this, doc
      ensures SingleObserver()
      ensures onmessage == old(onmessage) && calls == old(calls)
      ensures old(IsBridgeReady()) ==> connected == old(connected)
      ensures !old(IsBridgeReady()) ==> connected == 1
      ensures old(IsBridgeReady()) ==>
        pending == [] && observing == old(observing)
        && doc.requests == old(doc.requests) + old(pending)
        && doc.outputs == old(doc.outputs) + HandleEach(doc.requestListeners, old(pending))
        && doc.readyFlag == old(doc.readyFlag) && doc.requestListeners == old(doc.requestListeners)
        && doc.changes == old(doc.changes)
      ensures !old(IsBridgeReady()) ==>
        observing && pending == old(pending)
        && doc.requests == old(doc.requests) && doc.outputs == old(doc.outputs)
        && doc.readyFlag == old(doc.readyFlag) && doc.requestListeners == old(doc.requestListeners)
        && doc.changes == old(doc.changes)
    {
      if IsBridgeReady() {
        FlushPendingMessages();
        return;
      }
      if observing {
        return;
      }
      // _bridgeObserver = new MutationObserver(...), then observe(document.documentElement, ...)
      observing := true;
      connected := connected + 1;
    }

    /** webChannelTransport.send: dispatch at once when the bridge is ready, otherwise queue. */
    method Send(msg: string)
      requires Valid()
      modifies this, doc
      ensures Valid()
      ensures onmessage == old(onmessage) && calls == old(calls)
      ensures doc.readyFlag == old(doc.readyFlag) && doc.requestListeners == old(doc.requestListeners)
      ensures doc.changes == old(doc.changes)
      ensures old(IsBridgeReady()) ==> connected == old(connected)
      ensures !old(IsBridgeReady()) ==> connected == 1
      ensures old(IsBridgeReady()) ==>
        pending == old(pending) && observing == old(observing)
        && doc.requests == old(doc.requests) + [msg]
        && doc.outputs == old(doc.outputs) + HandleAll(doc.requestListeners, msg)
      ensures !old(IsBridgeReady()) ==>
        pending == old(pending) + [msg] && observing
        && doc.requests == old(doc.requests) && doc.outputs == old(doc.outputs)
    {
      if IsBridgeReady() {
        doc.DispatchRequest(msg);
      } else {
        pending := pending + [msg];
        WaitForBridge();
      }
    }

    /** The observer's callback: once the flag reads '1', disconnect, forget the
        observer and flush. Without an observer nothing runs. */
    method ObserverFires()
      requires Valid()
      modifies this, doc
      ensures Valid()
      ensures onmessage == old(onmessage) && calls == old(calls)
      ensures doc.readyFlag == old(doc.readyFlag) && doc.requestListeners == old(doc.requestListeners)
      ensures doc.changes == old(doc.changes)
      ensures old(observing) && old(IsBridgeReady()) ==>
        !observing && connected == 0 && pending == []
        && doc.requests == old(doc.requests) + old(pending)
        && doc.outputs == old(doc.outputs) + HandleEach(doc.requestListeners, old(pending))
      ensures !(old(observing) && old(IsBridgeReady())) ==>
        observing == old(observing) && connected == old(connected) && pending == old(pending)
        && doc.requests == old(doc.requests) && doc.outputs == old(doc.outputs)
    {
      if observing && IsBridgeReady() {
        // _bridgeObserver.disconnect(); _bridgeObserver = null
        connected := connected - 1;
        observing := false;
        FlushPendingMessages();
      }
    }

    /** The onmessage getter. */
    function GetOnmessage(): JsValue
      reads this
    {
      onmessage
    }

    /** The onmessage setter: the getter then returns what was set. */
    method SetOnmessage(fn: JsValue)
      modifies this
      ensures GetOnmessage() == fn
      ensures pending == old(pending) && observing == old(observing) && calls == old(calls)
      ensures connected == old(connected)
    {
      onmessage := fn;
    }

    /** __deliverMessage(data): call the handler with {data} only if it is a function. */
    method DeliverMessage(data: string)
      modifies this
      ensures onmessage == old(onmessage) && pending == old(pending) && observing == old(observing)
      ensures connected == old(connected)
      ensures calls == old(calls) + (if onmessage.JsFunction? then [HandlerCall(onmessage.id, data)] else [])
    {
      if onmessage.JsFunction? {
        calls := calls + [HandlerCall(onmessage.id, data)];
      }
    }

    /** The '__sq_push__' listener: call the handler with {data: detail} only if it is a function. */
    method PushReceived(detail: string)
      modifies this
      ensures onmessage == old(onmessage) && pending == old(pending) && observing == old(observing)
      ensures connected == old(connected)
      ensures calls == old(calls) + (if onmessage.JsFunction? then [HandlerCall(onmessage.id, detail)] else [])
    {
      if onmessage.JsFunction? {
        calls := calls + [HandlerCall(onmessage.id, detail)];
      }
    }
  }

  /** A page that sends two messages before the bridge loads: the bridge's
      listener receives both, in the order they were sent, once the observer fires. */
  method QueuedHandshake(invokeKey: string, first: string, second: string)
    returns (outputs: seq<BridgeOutput>, lost: seq<BridgeOutput>)
    ensures lost == []
    ensures outputs == [Posted(Packet(invokeKey, first)), Posted(Packet(invokeKey, second))]
  {
    var doc := new Document();
    var page := new PageTransport(doc);
    page.Send(first);
    assert page.doc == doc && doc.readyFlag == None && doc.outputs == [] && doc.requestListeners == [];
    assert page.pending == [first];
    page.Send(second);
    assert page.doc == doc && doc.outputs == [] && doc.requestListeners == [];
    assert page.pending == [first, second] && page.observing;
    lost := doc.outputs;
    Bootstrap(doc, invokeKey, true);
    var listener := BridgeListener(invokeKey, true);
    assert doc.requestListeners == [listener] && doc.outputs == [];
    assert page.Valid() && page.pending == [first, second] && page.observing;
    page.ObserverFires();
    outputs := doc.outputs;
    HandleEachPair(listener, first, second);
  }

  /** A message sent after the bridge is ready is dispatched at once and reaches the
      bridge's listener; without the native handler only the error is reported. */
  method ReadySend(invokeKey: string, handlerAvailable: bool, msg: string)
    returns (outputs: seq<BridgeOutput>, queued: seq<string>)
    ensures queued == []
    ensures outputs == [if handlerAvailable then Posted(Packet(invokeKey, msg)) else HandlerMissing]
  {
    var doc := new Document();
    var page := new PageTransport(doc);
    Bootstrap(doc, invokeKey, handlerAvailable);
    page.Send(msg);
    outputs, queued := doc.outputs, page.pending;
  }
}
