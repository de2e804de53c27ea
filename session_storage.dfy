/** The session-backed storage of cart snapshots. The session is a key-value
    table; the cart snapshot lives under the fixed key "cart", and any key can
    be deleted. Serialising a snapshot and reading it back is an exact round
    trip, so the table stores snapshots directly. */
module Storage {
  import opened ProductTable

  const CartKey: string := "cart"

  type Session = map<string, Table>

  /** What `load` reads from a session: the cart snapshot, or the empty table. */
  function Stored(session: Session): (r: Table)
    ensures CartKey in session ==> r == session[CartKey]
    ensures CartKey !in session ==> r == []
  {
    if CartKey in session then session[CartKey] else []
  }

  /** Only the "cart" entry matters: writing or deleting any other key leaves
      what load reads unchanged. */
  lemma StoredIgnoresOtherKeys(session: Session, key: string, data: Table)
    requires key != CartKey
    ensures Stored(session[key := data]) == Stored(session)
    ensures Stored(session - {key}) == Stored(session)
  {
  }

  /** Loading after saving gives back the saved snapshot. */
  lemma LoadAfterSave(session: Session, data: Table)
    ensures Stored(session[CartKey := data]) == data
  {
  }

  /** Loading after clearing gives the empty table. */
  lemma LoadAfterClear(session: Session)
    ensures Stored(session - {CartKey}) == []
  {
  }

  class SessionStorage {
    var session: Session

    /** Attaches to the current session, whatever it already holds. */
    constructor (session: Session)
      ensures this.session == session
    {
      this.session := session;
    }

    /** Stores the snapshot under "cart", replacing any earlier one. */
    method Save(data: Table)
      modifies this
      ensures session == old(session)[CartKey := data]
    {
      session := session[CartKey := data];
    }

    /** The stored snapshot, or the empty table when there is none; reads only. */
    method Load() returns (data: Table)
      ensures data == Stored(session)
    {
      if CartKey in session {
        data := session[CartKey];
      } else {
        data := [];
      }
    }

    /** Removes the "cart" key and nothing else. */
    method Clear()
      modifies this
      ensures session == old(session) - {CartKey}
      ensures forall k :: k != CartKey && k in old(session) ==> k in session && session[k] == old(session)[k]
    {
      session := session - {CartKey};
    }

    /** Removes one key if present; deleting an absent key changes nothing. */
    method Delete(key: string)
      modifies this
      ensures session == old(session) - {key}
      ensures key !in old(session) ==> session == old(session)
      ensures forall k :: k != key && k in old(session) ==> k in session && session[k] == old(session)[k]
    {
      if key in session {
        session := session - {key};
      }
    }
  }
}
