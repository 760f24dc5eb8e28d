/**
  The data-update coordinator: one refresh asks the API client for the
  device list, wraps any exception in `UpdateFailed`, and records when the
  last successful sync happened. The clock is a parameter: `now` stands for
  `datetime.now(timezone.utc)`, in seconds.
*/
module Coordinator {
  import opened Wrappers
  import opened Python
  import opened Api

  /** `raise UpdateFailed(exception) from exception` around whatever the fetch raised. */
  function WrapFetch(fetched: Result<Json, PyError>): (r: Result<Json, PyError>)
    ensures fetched.Ok? ==> r == fetched
    ensures fetched.Err? ==> r == Err(UpdateFailed(fetched.error))
  {
    match fetched
    case Ok(data) => Ok(data)
    case Err(e) => Err(UpdateFailed(e))
  }

  /** `CopenhagenTrackersDataUpdateCoordinator`. */
  class DataUpdateCoordinator {
    const api: TrackersApi
    var lastSyncTime: Option<int>
    /** How many refreshes `async_request_refresh` has asked the base class for. */
    var refreshRequests: nat

    /** Keeps the API client; no sync has happened yet. */
    constructor (api: TrackersApi)
      ensures this.api == api && lastSyncTime == None && refreshRequests == 0
    {
      this.api := api;
      lastSyncTime := None;
      refreshRequests := 0;
    }

    /**
      `_async_update_data` as written: the client has no method
      `async_get_devices_with_auth`, so the lookup raises AttributeError
      inside the `try`, which turns it into UpdateFailed; nothing is sent
      and the sync time is not touched.
    */
    method UpdateDataAsWritten(now: int) returns (r: Result<Json, PyError>)
      ensures r == Err(UpdateFailed(AttributeError))
    {
      var fetched: Result<Json, PyError> := Err(AttributeError);
      r := WrapFetch(fetched);
    }

    /**
      `_async_update_data` calling the client's `async_get_devices`: the
      fetched document on success, stamped with `now`; on any exception
      UpdateFailed of that exception, with the sync time left as it was.
    */
    method UpdateData(now: int) returns (r: Result<Json, PyError>)
      modifies this`lastSyncTime, api`accessToken, api.session
      ensures var run := GetDevicesRun(api.email, api.password, old(api.accessToken), old(api.session.replies));
        && r == WrapFetch(run.result)
        && lastSyncTime == (if run.result.Ok? then Some(now) else old(lastSyncTime))
        && api.accessToken == run.token
        && api.session.sent == old(api.session.sent) + run.sent
        && api.session.replies == Drop(old(api.session.replies), |run.sent|)
    {
      var fetched := api.GetDevices();
      if fetched.Ok? {
        lastSyncTime := Some(now);
      }
      r := WrapFetch(fetched);
    }

    /** `async_request_refresh`: one more refresh is requested of the base class. */
    method RequestRefresh()
      modifies this`refreshRequests
      ensures refreshRequests == old(refreshRequests) + 1
    {
      refreshRequests := refreshRequests + 1;
    }
  }

  /**
    With a held token and a server that answers the device request, the
    corrected refresh returns the server's document, while the refresh as
    written fails whatever the server says.
  */
  lemma CorrectedRefreshSucceeds(email: string, password: string, token: string, body: Json)
    requires token != ""
    ensures var run := GetDevicesRun(email, password, Str(token), [Response(200, body)]);
      WrapFetch(run.result) == Ok(body) && run.sent == [Fetch(Str(token))]
  {
    HeldTokenSingleGet(email, password, token, [Response(200, body)]);
  }
}
