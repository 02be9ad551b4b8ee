/** The stateful part of the Grist host binding (src/gristClient.ts): the
    module-level variables `gristApi` and `currentTableId` as the fields of
    one object, and `initGrist`, its records handler and
    `createRowFromPayload` as methods, each proved to take the state to the
    one the matching step function of GristSpec gives. */
module GristClient {

  import opened GristSpec

  /** Copies the payload into a fresh field set, entry by entry, as the
      `for ... of Object.entries(payload)` loop does.  Assigning the key
      `__proto__` into a plain object stores nothing, so that key is not
      copied. */
  method BuildFields(payload: map<string, string>) returns (fields: map<string, string>)
    ensures fields.Keys == payload.Keys - {PROTO_KEY}
    ensures forall colName :: colName in fields ==> fields[colName] == payload[colName]
  {
    fields := map[];
    var todo := payload.Keys;
    while todo != {}
      invariant todo <= payload.Keys
      invariant fields.Keys == payload.Keys - todo - {PROTO_KEY}
      invariant forall colName :: colName in fields ==> fields[colName] == payload[colName]
      decreases todo
    {
      var colName :| colName in todo;
      if colName != PROTO_KEY {
        fields := fields[colName := payload[colName]];
      }
      todo := todo - {colName};
    }
  }

  class Client {
    /** `gristApi !== undefined` */
    var hostPresent: bool
    /** whether a records handler has been registered with the host */
    ghost var listening: bool
    var currentTableId: Option<string>
    /** the calls made on the host so far */
    ghost var calls: seq<HostCall>

    ghost function State(): ClientState
      reads this
    {
      ClientState(hostPresent, listening, currentTableId, calls)
    }

    ghost predicate Valid()
      reads this
    {
      Consistent(State())
    }

    /** The state when the module is loaded. */
    constructor ()
      ensures Valid() && State() == Initial()
    {
      hostPresent := false;
      listening := false;
      currentTableId := None;
      calls := [];
    }

    /** `initGrist(onRowsChange?)`: `hostDetected` says whether
        `window.grist` exists, `hasListener` whether `onRowsChange` was
        given. */
    method InitGrist(hostDetected: bool, hasListener: bool)
      requires Valid()
      modifies this
      ensures Valid()
      ensures State() == InitStep(old(State()), hostDetected, hasListener)
    {
      StepKeepsConsistent<int, int>(State(), InitEvent(hostDetected, hasListener));
      if !hostDetected {
        return;
      }
      hostPresent := true;
      calls := calls + [Ready(ReadyOptions(Full, ColumnsConfig()))];
      if !hasListener {
        assert calls + [] == calls;
        return;
      }
      calls := calls + [RegisterOnRecords];
      listening := true;
    }

    /** The records handler registered by `initGrist`: the host gives it
        its records and mappings; `mapColumnNames` and `table` are the host's
        `mapColumnNames` and the answer of its `getTable`, and `idOf` stands
        for `Number(r.id)`.  What it returns is what the row listener
        receives. */
    method OnRecords<Rec, M>(records: seq<Rec>, mappings: M,
                             mapColumnNames: (seq<Rec>, MapOptions<M>) -> Option<seq<Rec>>,
                             table: Option<TableInfo>, idOf: Rec -> int)
      returns (rows: seq<FormRow>)
      requires Valid() && listening
      modifies this`currentTableId
      ensures Valid()
      ensures var reaction := ReactToRecords(mapColumnNames(records, MapOptions(ColumnsConfig(), mappings)), table, idOf);
        rows == reaction.rows && State() == RecordsStep(old(State()), reaction)
    {
      var mapped := mapColumnNames(records, MapOptions(ColumnsConfig(), mappings));
      if mapped.None? {
        rows := [];
        currentTableId := None;
        return;
      }
      currentTableId := if table.Some? then Some(table.value.tableId) else None;
      rows := ToRows(mapped.value, idOf);
    }

    /** `createRowFromPayload(payload, explicitTableId?)`: `createOutcome`
        is how the host's `docApi.create` settles. */
    method CreateRowFromPayload<E>(payload: map<string, string>, explicitTableId: Option<string>,
                                   createOutcome: Settlement<E>)
      returns (result: Completion<E>)
      requires Valid()
      modifies this`calls
      ensures Valid()
      ensures (State(), result) == CreateStep(old(State()), payload, explicitTableId, createOutcome)
    {
      StepKeepsConsistent<int, E>(State(), CreateEvent(payload, explicitTableId, createOutcome));
      if !hostPresent {
        return Completed;
      }
      var targetTableId := TargetTableId(explicitTableId, currentTableId);
      var fields := BuildFields(payload);
      assert fields == FieldSet(payload);
      calls := calls + [Create(targetTableId, [NewRecord(fields)])];
      match createOutcome
      case Resolved =>
        result := Completed;
      case Rejected(error) =>
        result := Threw(error);
    }
  }
}
