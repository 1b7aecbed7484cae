/** The per-phone transition log: a map from phone ID to the ordered
    sequence of log records of that phone (log_repository.go:29-95; the
    PhoneLogs map of phone_states.go:54-100 behaves the same way). */
module LogStore {
  import opened PhoneTypes

  /** The remark text of a record, kept abstract. */
  datatype Remarks = InitialRemarks(initial: State) | TransitionRemarks(from: State, to: State)

  /** One log record. `from` is None for the synthetic initial record,
      whose From field is the empty string in the source. */
  datatype Log = Log(id: int, phoneId: PhoneId, from: Option<State>, to: State, remarks: Remarks)

  type Logs = map<PhoneId, seq<Log>>

  /** The records of phone `p`; a phone never seen has none. */
  function History(m: Logs, p: PhoneId): seq<Log> {
    if p in m then m[p] else []
  }

  /** IDs run 1..n and every record belongs to `p`; a stored history is never empty. */
  predicate WellFormed(p: PhoneId, h: seq<Log>) {
    |h| > 0 && forall i | 0 <= i < |h| :: h[i].id == i + 1 && h[i].phoneId == p
  }

  predicate StoreInvariant(m: Logs) {
    forall p | p in m :: WellFormed(p, m[p])
  }

  /** The record GetLastOrInsert stores for a phone it has not seen. */
  function InitialLog(p: PhoneId, initial: State): Log {
    Log(1, p, None, initial, InitialRemarks(initial))
  }

  function TransitionLog(id: int, p: PhoneId, from: State, to: State): Log {
    Log(id, p, Some(from), to, TransitionRemarks(from, to))
  }

  /** `h` with the record InsertPhoneLog adds: the next ID, the given states. */
  function Appended(h: seq<Log>, p: PhoneId, from: State, to: State): seq<Log> {
    h + [TransitionLog(|h| + 1, p, from, to)]
  }

  /** Appending keeps the history well formed, keeps every earlier record
      and adds exactly one record numbered one past the old length. */
  lemma {:induction false} AppendedWellFormed(p: PhoneId, h: seq<Log>, from: State, to: State)
    requires h == [] || WellFormed(p, h)
    ensures WellFormed(p, Appended(h, p, from, to))
    ensures |Appended(h, p, from, to)| == |h| + 1 && Appended(h, p, from, to)[..|h|] == h
    ensures Appended(h, p, from, to)[|h|] == TransitionLog(|h| + 1, p, from, to)
  {
    var r := Appended(h, p, from, to);
    forall i | 0 <= i < |r| ensures r[i].id == i + 1 && r[i].phoneId == p {
      if i < |h| {
        assert r[i] == h[i];
      }
    }
  }

  /** The store. Every method keeps the invariant that each present phone
      has a non-empty history numbered 1..n. */
  class LogStore {
    var logs: Logs

    ghost predicate Valid()
      reads this
    {
      StoreInvariant(logs)
    }

    constructor ()
      ensures Valid() && logs == map[]
    {
      logs := map[];
    }

    /** The last record of `phoneId`; a phone not yet present first gets
        the single record (1, phoneId, none, initial). */
    method GetLastOrInsert(phoneId: PhoneId, initial: State) returns (last: Log)
      requires Valid()
      modifies this
      ensures Valid()
      ensures phoneId in old(logs) ==>
        logs == old(logs) && last == old(logs)[phoneId][|old(logs)[phoneId]| - 1]
      ensures phoneId !in old(logs) ==>
        logs == old(logs)[phoneId := [InitialLog(phoneId, initial)]] && last == InitialLog(phoneId, initial)
    {
      if phoneId !in logs {
        logs := logs[phoneId := [InitialLog(phoneId, initial)]];
        return logs[phoneId][0];
      }
      var h := logs[phoneId];
      return h[|h| - 1];
    }

    /** A copy of the records of `phoneId`, empty for a phone not present. */
    method GetPhoneLogs(phoneId: PhoneId) returns (r: seq<Log>)
      ensures phoneId in logs ==> r == logs[phoneId]
      ensures phoneId !in logs ==> r == []
    {
      r := if phoneId in logs then logs[phoneId] else [];
    }

    /** Appends (from -> to) with the next ID; other phones keep their records. */
    method InsertPhoneLog(phoneId: PhoneId, from: State, to: State)
      modifies this
      ensures old(Valid()) ==> Valid()
      ensures logs == old(logs)[phoneId := Appended(History(old(logs), phoneId), phoneId, from, to)]
      ensures phoneId !in old(logs) ==> logs[phoneId] == [TransitionLog(1, phoneId, from, to)]
    {
      var h := History(logs, phoneId);
      if phoneId !in logs {
        logs := logs[phoneId := []];
      }
      logs := logs[phoneId := h + [TransitionLog(|h| + 1, phoneId, from, to)]];
      if old(Valid()) {
        AppendedWellFormed(phoneId, h, from, to);
      }
    }
  }
}
