/**
  The bridge-world half of the custom web view's WebChannel transport. It listens
  for '__sq_req__' DOM events coming from the page world, wraps each event's
  detail in a packet carrying the injected invoke key and posts it to the native
  'qtbridge' message handler; once the listener is in place it sets the shared
  document attribute data-sq-bridge-ready to '1'.

  The document both worlds share is the class Document: its dataset flag, the
  request listeners the bridge registered, and what those listeners did. DOM
  event dispatch is synchronous: dispatching a request runs every registered
  listener in registration order.
*/
module BootstrapBridge {
  import opened Common

  /** The JSON object {invokeKey, data} the bridge posts (its serialisation is not modelled). */
  datatype Packet = Packet(invokeKey: string, data: string)

  /** A '__sq_req__' listener: the key the bridge script was injected with and
      whether webkit.messageHandlers.qtbridge existed when the script loaded. */
  datatype BridgeListener = BridgeListener(invokeKey: string, handlerAvailable: bool)

  /** What one listener did with one request: posted a packet, or logged that the
      native handler is missing. */
  datatype BridgeOutput = Posted(packet: Packet) | HandlerMissing

  /** Changes the bridge makes to the document, in order. */
  datatype DocChange = RequestListenerAdded(listener: BridgeListener) | ReadyFlagSet(value: string)

  /** The value of the ready flag once the bridge listens. */
  const ReadyValue: string := "1"

  /** The request listener's body for one event: String(detail) is the detail itself,
      since the page only sends strings. */
  function HandleRequest(l: BridgeListener, detail: string): BridgeOutput
  {
    if l.handlerAvailable then Posted(Packet(l.invokeKey, detail)) else HandlerMissing
  }

  /** Dispatching one request event to the registered listeners, in order. */
  function HandleAll(ls: seq<BridgeListener>, detail: string): (out: seq<BridgeOutput>)
    ensures |out| == |ls|
    ensures forall i :: 0 <= i < |ls| ==>
      (out[i].Posted? <==> ls[i].handlerAvailable)
      && (out[i].Posted? ==> out[i].packet == Packet(ls[i].invokeKey, detail))
  {
    if ls == [] then [] else [HandleRequest(ls[0], detail)] + HandleAll(ls[1..], detail)
  }

  class Document {
    /** documentElement.dataset.sqBridgeReady (None: the attribute is absent). */
    var readyFlag: Option<string>
    /** The '__sq_req__' listeners, in registration order. */
    var requestListeners: seq<BridgeListener>
    /** What the listeners did, in order. */
    var outputs: seq<BridgeOutput>
    /** The details of all '__sq_req__' events dispatched, in order. */
    ghost var requests: seq<string>
    /** The bridge's changes to the document, in order. */
    ghost var changes: seq<DocChange>

    /** The flag never reads '1' while no request listener exists, and every
        registered listener had been recorded before any flag was set. */
    ghost predicate Valid()
      reads this
    {
      (readyFlag == Some(ReadyValue) ==> requestListeners != [] && ReadyFlagSet(ReadyValue) in changes)
      && (forall i :: 0 <= i < |changes| && changes[i].ReadyFlagSet? ==>
            exists j :: 0 <= j < i && changes[j].RequestListenerAdded?)
    }

    constructor ()
      ensures Valid()
      ensures readyFlag == None && requestListeners == [] && outputs == [] && requests == [] && changes == []
    {
      readyFlag, requestListeners, outputs := None, [], [];
      requests, changes := [], [];
    }

    /** document.dispatchEvent(new CustomEvent('__sq_req__', {detail})). A request
        dispatched while no listener is registered is lost. */
    method DispatchRequest(detail: string)
      modifies this
      ensures readyFlag == old(readyFlag) && requestListeners == old(requestListeners) && changes == old(changes)
      ensures outputs == old(outputs) + HandleAll(requestListeners, detail)
      ensures requests == old(requests) + [detail]
    {
      outputs := outputs + HandleAll(requestListeners, detail);
      requests := requests + [detail];
    }
  }

  /** The bridge script: register the request listener, then set the ready flag to '1'. */
  method Bootstrap(doc: Document, invokeKey: string, handlerAvailable: bool)
    requires doc.Valid()
    modifies doc
    ensures doc.Valid()
    ensures doc.requestListeners == old(doc.requestListeners) + [BridgeListener(invokeKey, handlerAvailable)]
    ensures doc.readyFlag == Some(ReadyValue)
    ensures doc.changes == old(doc.changes)
                           + [RequestListenerAdded(BridgeListener(invokeKey, handlerAvailable)), ReadyFlagSet(ReadyValue)]
    ensures doc.outputs == old(doc.outputs) && doc.requests == old(doc.requests)
  {
    var listener := BridgeListener(invokeKey, handlerAvailable);
    doc.requestListeners := doc.requestListeners + [listener];
    doc.changes := doc.changes + [RequestListenerAdded(listener)];
    doc.readyFlag := Some(ReadyValue);
    doc.changes := doc.changes + [ReadyFlagSet(ReadyValue)];
    ghost var n := |doc.changes|;
    assert doc.changes[n - 2].RequestListenerAdded?;
    assert forall i :: 0 <= i < n - 2 ==> doc.changes[i] == old(doc.changes)[i];
  }
}
