/**
 * The client side shared by the resource-manager clients: the connection
 * flag toggled by `connect`/`disconnect` and the `with` block, and the
 * `update_fields` request.
 */
module Client {
  import opened Wrappers
  import opened Api
  import ResourceControl

  /** What the server answers an `update_fields` request with. */
  datatype Reply = NoContent | BadRequest(details: string)

  class AbstractClient {
    const host: string
    const port: int
    const baseUri: string
    const lockTimeout: int
    var isConnected: bool

    /** `is_connected`. */
    predicate IsConnected()
      reads this
    {
      isConnected
    }

    /** A new client is not connected. */
    constructor(host: string, port: int, baseUri: string, lockTimeout: int)
      ensures this.host == host && this.port == port && this.baseUri == baseUri
      ensures this.lockTimeout == lockTimeout
      ensures !IsConnected()
    {
      this.host := host;
      this.port := port;
      this.baseUri := baseUri;
      this.lockTimeout := lockTimeout;
      isConnected := false;
    }

    /** `connect`: connected afterwards, whatever the state before. */
    method Connect()
      modifies this
      ensures IsConnected()
    {
      isConnected := true;
    }

    /** `disconnect`: not connected afterwards, and it never fails, even when never connected. */
    method Disconnect()
      modifies this
      ensures !IsConnected()
    {
      isConnected := false;
    }

    /** `__enter__`: connects and yields the client itself. */
    method Enter() returns (c: AbstractClient)
      modifies this
      ensures c == this && IsConnected()
    {
      Connect();
      c := this;
    }

    /** `__exit__`: disconnects. */
    method Exit()
      modifies this
      ensures !IsConnected()
    {
      Disconnect();
    }

    /**
     * `update_fields`: describes the records by the model and the filter
     * (none meaning no constraint), sends the changes and raises with the
     * reply's details when the server answers with a bad request. Sending
     * is `send`.
     */
    method UpdateFields(model: string, filter: Option<Fields>, changes: Fields, send: ChangeRequest -> Reply)
      returns (r: Outcome<string>)
      ensures r.Fail? <==> send(UpdateFieldsRequest(model, filter, changes)).BadRequest?
      ensures r.Fail? ==> r.error == send(UpdateFieldsRequest(model, filter, changes)).details
    {
      var filterDict := if filter.None? then map[] else filter.value;
      var desc := Descriptor(model, filterDict);
      var request := ChangeRequest(desc, changes);
      var response := send(request);
      if response.BadRequest? {
        return Fail(response.details);
      }
      return Pass;
    }
  }

  /** The request `update_fields` sends: the model with the filter as its properties, and the changes. */
  function UpdateFieldsRequest(model: string, filter: Option<Fields>, changes: Fields): ChangeRequest
  {
    ChangeRequest(Descriptor(model, if filter.None? then map[] else filter.value), changes)
  }

  /** A call without a filter sends the same request as one with an empty filter. */
  lemma NoFilterSendsEmptyFilter(model: string, changes: Fields)
    ensures UpdateFieldsRequest(model, None, changes) == UpdateFieldsRequest(model, Some(map[]), changes)
  {
  }

  /** A client call without a filter makes the server update every record of the model. */
  lemma NoFilterReachesAllRecords(model: string, changes: Fields, store: seq<ResourceControl.Record>)
    ensures var req := UpdateFieldsRequest(model, None, changes);
            forall i :: 0 <= i < |store| ==>
              ResourceControl.UpdatedStore(store, Some(req.descriptor.properties), req.changes)[i] ==
              store[i] + changes
  {
    ResourceControl.NoFilterUpdatesAll(store, Some(map[]), changes);
  }
}
