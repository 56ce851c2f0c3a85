/** One CFG directory, whose every operation may fail. */
module CfgFiles {
  import opened Wrappers

  type Files = map<string, Bytes>

  datatype IoError = NotFound | AlreadyExists | Fault

  /** `Refused` fails before the effect, `Interrupted` after it. */
  datatype Health = Healthy | Refused | Interrupted

  datatype Write = Create(name: string, content: Bytes) | Replace(name: string, content: Bytes)

  function Lookup(files: Files, name: string): Option<Bytes> {
    if name in files then Some(files[name]) else None
  }

  /** Creating never overwrites. */
  function Done(files: Files, w: Write): Files {
    if w.Create? && w.name in files then files else files[w.name := w.content]
  }

  function DoneAll(files: Files, writes: seq<Write>): Files {
    if writes == [] then files
    else Done(DoneAll(files, writes[..|writes| - 1]), writes[|writes| - 1])
  }

  class Directory {
    var files: Files
    var calls: nat
    const health: nat -> Health

    constructor (files: Files, health: nat -> Health)
      ensures this.files == files && this.calls == 0 && this.health == health
    {
      this.files := files;
      this.calls := 0;
      this.health := health;
    }

    method Create(name: string, content: Bytes) returns (r: Result<(), IoError>)
      modifies this
      ensures files == if health(old(calls)).Refused? then old(files) else Done(old(files), Write.Create(name, content))
      ensures r == if !health(old(calls)).Healthy? then Err(Fault)
                   else if name in old(files) then Err(AlreadyExists) else Ok(())
      ensures calls == old(calls) + 1
    {
      var fault := health(calls);
      calls := calls + 1;
      if fault.Refused? { return Err(Fault); }
      var existed := name in files;
      if !existed { files := files[name := content]; }
      if fault.Interrupted? { return Err(Fault); }
      return if existed then Err(AlreadyExists) else Ok(());
    }

    method Replace(name: string, content: Bytes) returns (r: Result<(), IoError>)
      modifies this
      ensures files == if health(old(calls)).Refused? then old(files) else Done(old(files), Write.Replace(name, content))
      ensures r == if health(old(calls)).Healthy? then Ok(()) else Err(Fault)
      ensures calls == old(calls) + 1
    {
      var fault := health(calls);
      calls := calls + 1;
      if fault.Refused? { return Err(Fault); }
      files := files[name := content];
      return if fault.Interrupted? then Err(Fault) else Ok(());
    }

    method Read(name: string) returns (r: Result<Bytes, IoError>)
      modifies `calls
      ensures r == if !health(old(calls)).Healthy? then Err(Fault)
                   else if name in files then Ok(files[name]) else Err(NotFound)
      ensures calls == old(calls) + 1
    {
      var fault := health(calls);
      calls := calls + 1;
      if !fault.Healthy? { return Err(Fault); }
      return if name in files then Ok(files[name]) else Err(NotFound);
    }

    method Remove(name: string) returns (r: Result<(), IoError>)
      modifies this
      ensures files == if health(old(calls)).Refused? then old(files) else old(files) - {name}
      ensures r == if !health(old(calls)).Healthy? then Err(Fault)
                   else if name in old(files) then Ok(()) else Err(NotFound)
      ensures calls == old(calls) + 1
    {
      var fault := health(calls);
      calls := calls + 1;
      if fault.Refused? { return Err(Fault); }
      var existed := name in files;
      files := files - {name};
      if fault.Interrupted? { return Err(Fault); }
      return if existed then Ok(()) else Err(NotFound);
    }

    method MakeDirectory() returns (r: Result<(), IoError>)
      modifies `calls
      ensures r == if health(old(calls)).Healthy? then Ok(()) else Err(Fault)
      ensures calls == old(calls) + 1
    {
      r := if health(calls).Healthy? then Ok(()) else Err(Fault);
      calls := calls + 1;
    }
  }

  lemma SameLookups(a: Files, b: Files)
    requires forall name: string :: Lookup(a, name) == Lookup(b, name)
    ensures a == b
  {
    forall name: string
      ensures name in a <==> name in b
      ensures name in a && name in b ==> a[name] == b[name]
    {
      assert Lookup(a, name) == Lookup(b, name);
    }
  }

  lemma {:induction false} DoneAllAppend(files: Files, a: seq<Write>, b: seq<Write>)
    ensures DoneAll(files, a + b) == DoneAll(DoneAll(files, a), b)
  {
    if b == [] {
      assert a + b == a;
    } else {
      assert (a + b)[..|a + b| - 1] == a + b[..|b| - 1];
      DoneAllAppend(files, a, b[..|b| - 1]);
    }
  }

  lemma {:induction false} UnnamedIsUntouched(files: Files, writes: seq<Write>, name: string)
    requires forall w | w in writes :: w.name != name
    ensures Lookup(DoneAll(files, writes), name) == Lookup(files, name)
  {
    if writes != [] {
      UnnamedIsUntouched(files, writes[..|writes| - 1], name);
    }
  }

  /** Files that are only ever created keep what they held. */
  lemma {:induction false} ExistingIsNotRecreated(files: Files, writes: seq<Write>, name: string)
    requires name in files && forall w | w in writes && w.name == name :: w.Create?
    ensures Lookup(DoneAll(files, writes), name) == Lookup(files, name)
  {
    if writes != [] {
      ExistingIsNotRecreated(files, writes[..|writes| - 1], name);
    }
  }

  /** The only write that names a file decides what the file holds. */
  lemma {:induction false} OnlyWriteDecides(files: Files, writes: seq<Write>, i: nat)
    requires i < |writes|
    requires forall j | 0 <= j < |writes| && j != i :: writes[j].name != writes[i].name
    ensures Lookup(DoneAll(files, writes), writes[i].name)
         == if writes[i].Create? && writes[i].name in files then Lookup(files, writes[i].name)
            else Some(writes[i].content)
  {
    var last := |writes| - 1;
    var rest := writes[..last];
    if i == last {
      UnnamedIsUntouched(files, rest, writes[i].name);
    } else {
      OnlyWriteDecides(files, rest, i);
    }
  }

  /** The first `done` of the writes turned `before` into `after`. */
  ghost predicate Performed(before: Files, writes: seq<Write>, done: nat, after: Files) {
    done <= |writes| && after == DoneAll(before, writes[..done])
  }

  lemma PerformedStart(before: Files, writes: seq<Write>)
    ensures Performed(before, writes, 0, before)
  {
    assert writes[..0] == [];
  }

  lemma PerformedStep(before: Files, writes: seq<Write>, done: nat, middle: Files, after: Files)
    requires done < |writes| && Performed(before, writes, done, middle) && after == Done(middle, writes[done])
    ensures Performed(before, writes, done + 1, after)
  {
    assert writes[..done + 1][..done] == writes[..done];
  }

  lemma PerformedFirst(before: Files, a: seq<Write>, b: seq<Write>, done: nat, after: Files)
    requires Performed(before, a, done, after)
    ensures Performed(before, a + b, done, after)
  {
    assert (a + b)[..done] == a[..done];
  }

  lemma PerformedSecond(before: Files, a: seq<Write>, middle: Files, b: seq<Write>, done: nat, after: Files)
    requires Performed(before, a, |a|, middle) && Performed(middle, b, done, after)
    ensures Performed(before, a + b, |a| + done, after)
  {
    assert a[..|a|] == a;
    assert (a + b)[..|a| + done] == a + b[..done];
    DoneAllAppend(before, a, b[..done]);
  }
}
