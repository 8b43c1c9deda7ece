/** The buffer of updates for sessions that nobody owns yet, and the guard that opens it. */
module EarlyUpdates {
  import opened Handover

  class EarlyBuffer {
    var creating: nat
    var updates: seq<Entry>

    constructor ()
      ensures creating == 0 && updates == []
    {
      creating, updates := 0, [];
    }

    /** A creation starts with an empty buffer. */
    method Open()
      modifies this
      ensures updates == [] && creating == old(creating) + 1
    {
      updates := [];
      creating := creating + 1;
    }

    /** The guard is dropped, on success and on every error. */
    method Close()
      requires creating > 0
      modifies this
      ensures updates == [] && creating == old(creating) - 1
    {
      creating := creating - 1;
      updates := [];
    }

    /** An update whose session is unknown is kept while a session is being created and there is room,
        refused when there is none, and otherwise dropped without an error. */
    method Notify(entry: Entry) returns (ok: bool)
      modifies this`updates
      ensures ok <==> creating == 0 || Fits(old(updates), entry.update.size)
      ensures ok <==> creating == 0
                      || (|old(updates)| < 64 && Sum(old(updates)) + entry.update.size <= 1024 * 1024)
      ensures updates == if creating > 0 && ok then old(updates) + [entry] else old(updates)
    {
      if creating == 0 {
        return true;
      }
      var bytes, i := 0, 0;
      while i < |updates|
        invariant i <= |updates| && bytes == Sum(updates[..i]) && updates == old(updates)
      {
        bytes := bytes + updates[i].update.size;
        assert updates[..i + 1][..i] == updates[..i];
        i := i + 1;
      }
      assert updates[..i] == updates;
      if |updates| >= MAX_EARLY || bytes + entry.update.size > MAX_EARLY_BYTES {
        return false;
      }
      updates := updates + [entry];
      return true;
    }

    /** Takes the whole buffer and applies the entries of `id` in order; the others are discarded. */
    method HandOver(id: string) returns (events: seq<Event>)
      modifies this`updates
      ensures updates == [] && events == Own(old(updates), id)
    {
      var taken := updates;
      updates := [];
      events := [];
      var i := 0;
      while i < |taken|
        invariant i <= |taken| && events == Own(taken[..i], id) && updates == []
      {
        assert taken[..i + 1][..i] == taken[..i];
        if taken[i].owner == id {
          events := events + [Applied(taken[i].update)];
        }
        i := i + 1;
      }
      assert taken[..i] == taken;
    }
  }
}
