/**
  internal/session/session.go: the SFTP connection that a session dials on first use, discards after
  a connection error and closes at its end.
 */
module Sessions {
  import opened Wrappers
  import Remote

  type ClientId = nat

  class Session {
    var sftp: Option<ClientId>
    var closed: bool
    ghost var dialled: seq<ClientId>  // clients the connector returned, in order
    ghost var shut: seq<ClientId>     // clients closed, in order

    /** Clients are closed once each, in the order they were dialled; at most the last is still open, and
        none is once the session is closed. */
    ghost predicate Valid()
      reads this
    {
      && dialled == shut + (if sftp.Some? then [sftp.value] else [])
      && (forall i, j :: 0 <= i < j < |dialled| ==> dialled[i] != dialled[j])
      && (closed ==> sftp.None?)
    }

    constructor ()
      ensures Valid() && !closed && sftp.None? && dialled == []
    {
      sftp, closed, dialled, shut := None, false, [], [];
    }

    /** `connect` is what the connector would return: a new client, or a failure. */
    method SFTP(connect: Option<ClientId>) returns (client: Option<ClientId>)
      requires Valid() && (connect.Some? ==> connect.value !in dialled)
      modifies this
      ensures Valid() && closed == old(closed) && shut == old(shut)
      ensures client == (if old(closed) then None else if old(sftp).Some? then old(sftp) else connect)
      ensures dialled
        == old(dialled) + (if !old(closed) && old(sftp).None? && connect.Some? then [connect.value] else [])
      ensures client.Some? ==> client == sftp
    {
      if closed {
        return None;
      }
      if sftp.Some? {
        return sftp;
      }
      if connect.None? {
        return None;
      }
      sftp := connect;
      dialled := dialled + [connect.value];
      return connect;
    }

    method InvalidateSFTP()
      requires Valid()
      modifies this
      ensures Valid() && sftp.None? && closed == old(closed) && dialled == old(dialled) && shut == dialled
    {
      if sftp.Some? {
        shut := shut + [sftp.value];
        sftp := None;
      }
      assert shut == dialled;
    }

    method IsConnected() returns (yes: bool)
      ensures yes == sftp.Some?
    {
      return sftp.Some?;
    }

    /** `answer` is what closing the client returns. */
    method Close(answer: Option<Remote.Error>) returns (error: Option<Remote.Error>)
      requires Valid()
      modifies this
      ensures Valid() && closed && sftp.None? && dialled == old(dialled) && shut == dialled
      ensures error == if old(sftp).Some? then answer else None
    {
      if closed {
        assert shut == dialled;
        return None;
      }
      closed := true;
      if sftp.None? {
        assert shut == dialled;
        return None;
      }
      shut := shut + [sftp.value];
      assert shut == dialled;
      sftp := None;
      return answer;
    }
  }
}
