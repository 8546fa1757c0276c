/** The registry of experts: a table from expert name to serialized record,
    optionally bound to a backing file that every insertion rewrites in full.
    A file is modelled by the table this registry last wrote to it (or read
    from it). */
module Registry {
  import opened Wrappers
  import opened PyValues
  import opened Experts

  /** A table as a file holds it: parameter dictionaries by value. */
  type StoredTable = map<Value, Snapshot>

  class Manager {
    var fname: Option<string>
    var experts: map<Value, Record<ParamDict>>
    /** The table this registry last wrote to, or read from, each path. */
    ghost var saved: map<string, StoredTable>

    /** The parameter dictionaries the table's records share. */
    ghost function Dicts(): set<ParamDict>
      reads this`experts
    {
      set n | n in experts :: experts[n].modelParams
    }

    /** The table's current value, as `json.dump` would write it. */
    ghost function Frozen(): StoredTable
      reads this`experts, Dicts()
    {
      map n | n in experts :: Freeze(experts[n])
    }

    /** `Manager()`: no backing file, an empty table. */
    constructor ()
      ensures fname == None && experts == map[] && saved == map[]
    {
      fname := None;
      experts := map[];
      saved := map[];
    }

    /** `Manager(infile)`: the table `json.load` read from `infile`. */
    constructor Load(infile: string, loaded: map<Value, Record<ParamDict>>)
      ensures fname == Some(infile) && experts == loaded
      ensures saved == map[infile := Frozen()]
    {
      fname := Some(infile);
      experts := loaded;
      new;
      ghost var t := Frozen();
      saved := map[infile := t];
      assert forall n :: n in t ==> t[n] == Frozen()[n];
      assert t == Frozen();
    }

    /** `add_expert`: store the expert's record under its name, replacing any
        earlier one, and rewrite the backing file when one is bound. */
    method AddExpert(e: LanguageExpert)
      modifies this
      ensures experts == old(experts)[e.name := e.Serialize()]
      ensures fname == old(fname)
      ensures fname.Some? ==> saved == old(saved)[fname.value := Frozen()]
      ensures fname.None? ==> saved == old(saved)
    {
      experts := experts[e.name := e.Serialize()];
      if fname.Some? {
        Save(fname.value);
      }
    }

    /** `delete_expert`: remove the entry, KeyError when there is none. The
        backing file is not rewritten. */
    method DeleteExpert(expertName: Value) returns (r: Outcome<Error>)
      modifies this
      ensures r.Pass? <==> expertName in old(experts)
      ensures r.Fail? ==> r.error == KeyError
      ensures experts == old(experts) - {expertName}
      ensures fname == old(fname) && saved == old(saved)
    {
      if expertName !in experts {
        return Fail(KeyError);
      }
      experts := experts - {expertName};
      r := Pass;
    }

    /** `get_expert`: a new expert built from the stored record, sharing its
        parameter dictionary; KeyError for an unknown name. */
    method GetExpert(expertName: Value) returns (r: Result<LanguageExpert, Error>)
      ensures r.Success? <==> expertName in experts
      ensures r.Failure? ==> r.error == KeyError
      ensures r.Success? ==>
        && fresh(r.value)
        && r.value.Serialize() == experts[expertName]
        && r.value.chat == Client(experts[expertName].modelParams.entries)
        && r.value.extra == map[]
    {
      if expertName !in experts {
        return Failure(KeyError);
      }
      var rec := experts[expertName];
      var e := new LanguageExpert(rec.name, rec.systemMessage, rec.description,
                                  rec.exampleInput, rec.exampleOutput, Some(rec.modelParams));
      r := Success(e);
    }

    /** `save`: overwrite `outfile` with the whole table. */
    method Save(outfile: string)
      modifies this
      ensures experts == old(experts) && fname == old(fname)
      ensures saved == old(saved)[outfile := Frozen()]
    {
      ghost var t := Frozen();
      saved := saved[outfile := t];
      // the table and its dictionaries are untouched, so is its value
      assert forall n :: n in t ==> t[n] == Frozen()[n];
      assert t == Frozen();
    }
  }

  /** Adding an expert and reading it back by name gives a record equal to
      the expert's own, sharing its parameter dictionary. */
  method AddThenGet(m: Manager, e: LanguageExpert) returns (r: Result<LanguageExpert, Error>)
    modifies m
    ensures r.Success? && r.value.Serialize() == e.Serialize()
    ensures r.value.modelParams == e.modelParams
  {
    m.AddExpert(e);
    r := m.GetExpert(e.name);
  }

  /** A registry without a file: after adding an expert named "X", "X" is
      found and has that name, and "Y" is a KeyError. */
  method LookupKnownAndUnknown(systemMessage: Value) returns (x: Result<LanguageExpert, Error>, y: Result<LanguageExpert, Error>)
    ensures x.Success? && x.value.name == Str("X")
    ensures y == Failure(KeyError)
  {
    var m := new Manager();
    var e := new LanguageExpert(Str("X"), systemMessage);
    m.AddExpert(e);
    x := m.GetExpert(Str("X"));
    y := m.GetExpert(Str("Y"));
  }

  /** A file-bound registry: after an insertion the file holds the expert's
      record; after deleting it again the entry is gone from memory but still
      in the file. */
  method AddThenDelete(infile: string, loaded: map<Value, Record<ParamDict>>, e: LanguageExpert)
    returns (storedAfterAdd: bool, inMemory: bool, ghost inFile: bool)
    ensures storedAfterAdd && !inMemory && inFile
  {
    var m := new Manager.Load(infile, loaded);
    m.AddExpert(e);
    storedAfterAdd := e.name in m.experts;
    assert m.saved[infile][e.name] == Freeze(e.Serialize());
    var _ := m.DeleteExpert(e.name);
    inMemory := e.name in m.experts;
    inFile := e.name in m.saved[infile];
  }

  /** Changing a generation parameter of an expert after adding it changes the
      registry's entry too (the two share the dictionary), while the file
      written by the insertion keeps the value the parameter had. */
  method EditAfterAdd(infile: string, e: LanguageExpert, temperature: Value)
    returns (stored: Value, ghost inFile: Option<Value>)
    modifies e, e.modelParams
    ensures stored == temperature
    ensures inFile == if "temperature" in old(e.modelParams.entries)
                      then Some(old(e.modelParams.entries)["temperature"]) else None
  {
    var m := new Manager.Load(infile, map[]);
    m.AddExpert(e);
    var _ := e.ChangeParam("temperature", temperature);
    stored := m.experts[e.name].modelParams.entries["temperature"];
    var file := m.saved[infile][e.name].modelParams;
    inFile := if "temperature" in file then Some(file["temperature"]) else None;
  }

  /** Two experts rebuilt from one registry entry share its dictionary: a
      parameter change made through the first is seen by the second's
      parameters, while the second's client keeps the parameters it was
      built with. */
  method SharedEditLeavesOtherClientStale(e: LanguageExpert, temperature: Value)
    returns (seenBySecond: Value, secondClient: Client)
    modifies e.modelParams
    ensures seenBySecond == temperature
    ensures secondClient == Client(old(e.modelParams.entries))
  {
    var m := new Manager();
    m.AddExpert(e);
    var first := m.GetExpert(e.name);
    var second := m.GetExpert(e.name);
    var _ := first.value.ChangeParam("temperature", temperature);
    seenBySecond := second.value.modelParams.entries["temperature"];
    secondClient := second.value.chat;
  }

  /** A generation parameter changed through an expert reaches, in the table
      a later save would write, exactly the entries whose records share that
      expert's dictionary; every other entry keeps its value. */
  method EditReachesSharingEntries(m: Manager, e: LanguageExpert, key: string, v: Value)
    returns (r: Outcome<Error>)
    requires key in ModelKeys
    modifies e, e.modelParams
    ensures m.experts == old(m.experts)
    ensures forall n :: n in m.experts ==>
      m.Frozen()[n] == if m.experts[n].modelParams == e.modelParams
                       then old(m.Frozen()[n]).(modelParams := old(m.Frozen()[n]).modelParams[key := v])
                       else old(m.Frozen()[n])
  {
    r := e.ChangeParam(key, v);
  }
}
