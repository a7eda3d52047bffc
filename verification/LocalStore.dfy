/**
 The local checkpoint store as one process runs it, undisturbed: each method makes the file
 replacements of the source in order, and its whole effect is one step of the atomic object. The
 interleaved form is StoreProtocol; here nothing is left to a scheduler, so that success itself is
 pinned down.
 */
module LocalStore {
  import opened Text
  import opened JsonValues
  import opened Layout
  import opened StoreSpec
  import opened StoreProtocol
  import opened StoreRefinement
  import opened StoreRuns
  import opened StoreReplies
  import PrivateIgnore

  class CheckpointDir {
    const w: World
    var files: map<string, string>

    constructor (w: World, files: map<string, string>)
      ensures this.w == w && this.files == files
    {
      this.w := w;
      this.files := files;
    }

    /** Exclusive temporary write, rename, and the finally block; a taken name is the only error here. */
    method Replace(target: string, text: string, temp: Temp) returns (ok: bool)
      requires IsRead(target)
      modifies this
      ensures ok <==> temp.Name() !in old(files)
      ensures ok ==> Replaces(old(files), files, target, text, temp)
      ensures temp.Name() !in files
      ensures !ok ==> files == old(files) - { temp.Name() }
    {
      TempIsNotRead(temp);
      ok := temp.Name() !in files;
      if ok {
        files := files[temp.Name() := text];
        files := files[target := files[temp.Name()]] - { temp.Name() };
      }
      if temp.Name() in files {
        files := files - { temp.Name() };
      }
    }

    method EnsurePrivateRuntimeIgnore(temp: Temp) returns (ok: bool)
      requires PlainPatterns(w)
      modifies this
      ensures temp.Name() !in old(files) ==> ok
      ensures ok ==> Private(w, files)
      ensures IgnoreText(files) ==
        if ok then PrivateIgnore.Extended(w.patterns, IgnoreText(old(files))) else IgnoreText(old(files))
      ensures forall name | name != IGNORE && name != temp.Name() :: Get(files, name) == Get(old(files), name)
    {
      var current := if IGNORE in files then files[IGNORE] else "";
      PrivateIgnore.ExtendedIsSafe(w.patterns, current);
      PrivateIgnore.ExtendedIsIdempotent(w.patterns, current);
      if PrivateIgnore.Missing(w.patterns, current) == [] {
        return true;
      }
      ghost var before := files;
      ok := Replace(IGNORE, PrivateIgnore.Extended(w.patterns, current), temp);
      if !ok { IgnoreOutlivesTemps(before, temp); }
    }

    /** The registry half of createSession. */
    method Register(session: string, temp: Temp) returns (r: Reply)
      requires w.codec.RoundTrips() && IsUuidV4(session)
      requires Sessions(w.codec, files).Some? ==> session !in Sessions(w.codec, files).value
      modifies this
      ensures Atomic(w.codec, Abstract(w.codec, old(files)), Create, r) == Some(Abstract(w.codec, files))
      ensures r.Issued? ==> r.id == session
      ensures Get(files, IGNORE) == Get(old(files), IGNORE)
      ensures temp.Name() !in old(files) ==> r != Failed
    {
      TempIsNotRead(temp);
      var text := Get(files, REGISTRY);
      var ids := Ids(w.codec, text);
      if ids.None? { return Corrupt; }
      var plan := Plan(REGISTRY, text, RegistryText(w.codec, ids.value + [session]), Return(Issued(session)));
      assert session !in ids.value;
      var ok := Replace(REGISTRY, plan.text, temp);
      if ok {
        ReplaceIsAtomic(w, old(files), files, Create, plan, temp);
        return Issued(session);
      }
      SameReadsSameAbstract(w.codec, old(files), files);
      return Failed;
    }

    method CreateSession(session: string, temp1: Temp, temp2: Temp) returns (r: Reply)
      requires w.codec.RoundTrips() && PlainPatterns(w) && IsUuidV4(session)
      requires Sessions(w.codec, files).Some? ==> session !in Sessions(w.codec, files).value
      requires temp1.Name() != temp2.Name()
      modifies this
      ensures Atomic(w.codec, Abstract(w.codec, old(files)), Create, r) == Some(Abstract(w.codec, files))
      ensures r.Issued? ==> r.id == session && Private(w, files)
      ensures temp1.Name() !in old(files) && temp2.Name() !in old(files) ==>
        if RegistryBroken(w.codec, old(files)) then r == Corrupt else r == Issued(session)
      ensures r.Issued? && REGISTRY !in old(files) ==> Sessions(w.codec, files) == Some({ session })
    {
      TempIsNotRead(temp2);
      var ok := EnsurePrivateRuntimeIgnore(temp1);
      SameStoreUnlessIgnore(w.codec, old(files), files, temp1);
      if !ok { return Failed; }
      assert Get(files, temp2.Name()) == Get(old(files), temp2.Name());
      ghost var ignore := Get(files, IGNORE);
      r := Register(session, temp2);
      assert ignore == Get(files, IGNORE);
      if r != Failed { LocalSessionAnswer(w.codec, old(files), files, r); }
    }

    method Read(skill: string, session: string) returns (r: Reply)
      ensures r != Failed
      ensures Atomic(w.codec, Abstract(w.codec, files), StoreSpec.Read(skill, session), r)
              == Some(Abstract(w.codec, files))
      ensures ReadAnswer(w.codec, Sessions(w.codec, files), Get(files, RecordName(skill)),
                         StoreSpec.Read(skill, session), r)
    {
      var op := StoreSpec.Read(skill, session);
      var verdict := Verdict(Sessions(w.codec, files), op);
      if verdict.Some? {
        r := verdict.value;
      } else {
        AbstractLookup(w.codec, files, skill);
        r := Observation(w.codec, Get(files, RecordName(skill)));
      }
      LocalReadAnswer(w.codec, files, op, r);
    }

    method Write(skill: string, session: string, value: Json, expected: Option<Json>, pid: string, uuid: string)
      returns (r: Reply)
      requires w.codec.RoundTrips()
      modifies this
      ensures Atomic(w.codec, Abstract(w.codec, old(files)), StoreSpec.Write(skill, session, value, expected), r)
              == Some(Abstract(w.codec, files))
      ensures TempName(skill, pid, uuid) !in old(files) ==> r != Failed
      ensures r != Failed ==>
        WriteAnswer(w.codec, Sessions(w.codec, old(files)), Get(old(files), RecordName(skill)),
                    StoreSpec.Write(skill, session, value, expected), r)
      ensures r == Failed ==>
        Due(w.codec, Sessions(w.codec, old(files)), Get(old(files), RecordName(skill)),
            StoreSpec.Write(skill, session, value, expected))
    {
      r := Attempt(skill, session, value, expected, pid, uuid);
      if r != Failed {
        LocalWriteAnswer(w.codec, old(files), StoreSpec.Write(skill, session, value, expected), r);
      }
    }

    /** The steps of a write. */
    method Attempt(skill: string, session: string, value: Json, expected: Option<Json>, pid: string, uuid: string)
      returns (r: Reply)
      requires w.codec.RoundTrips()
      modifies this
      ensures Atomic(w.codec, Abstract(w.codec, old(files)), StoreSpec.Write(skill, session, value, expected), r)
              == Some(Abstract(w.codec, files))
      ensures TempName(skill, pid, uuid) !in old(files) ==> r != Failed
      ensures r == Failed ==>
        Due(w.codec, Sessions(w.codec, old(files)), Get(old(files), RecordName(skill)),
            StoreSpec.Write(skill, session, value, expected))
    {
      var op := StoreSpec.Write(skill, session, value, expected);
      var verdict := Verdict(Sessions(w.codec, files), op);
      if verdict.Some? { return verdict.value; }
      var target := RecordName(skill);
      RecordNamesAreExact(skill);
      AbstractLookup(w.codec, files, skill);
      var current := Get(files, target);
      if Unreadable(w.codec, current) { return Corrupt; }
      if !Meets(w.codec, DemandOf(expected), current) { return Conflict; }
      MetWritesAreDue(w.codec, files, op);
      var text := w.codec.Stored(value);
      var plan := Plan(target, current, text, Return(Stored(w.codec.hash(text))));
      var temp := Temp(skill, pid, uuid);
      TempIsNotRead(temp);
      ghost var before := files;
      var ok := Replace(target, text, temp);
      if ok {
        ReplaceIsAtomic(w, before, files, op, plan, temp);
        return plan.next.reply;
      }
      SameReadsSameAbstract(w.codec, before, files);
      return Failed;
    }
  }

  lemma IgnoreOutlivesTemps(files: map<string, string>, temp: Temp)
    ensures IgnoreText(files - { temp.Name() }) == IgnoreText(files)
  {
    TempIsNotRead(temp);
  }

  lemma SameStoreUnlessIgnore(codec: Codec, f: map<string, string>, g: map<string, string>, temp: Temp)
    requires forall name | name != IGNORE && name != temp.Name() :: Get(f, name) == Get(g, name)
    ensures Abstract(codec, f) == Abstract(codec, g) && Sessions(codec, f) == Sessions(codec, g)
  {
    TempIsNotRead(temp);
    var a, b := Abstract(codec, f).records, Abstract(codec, g).records;
    assert Get(f, REGISTRY) == Get(g, REGISTRY);
    forall name ensures Get(a, name) == Get(b, name) {
      if IsRecordName(name) {
        assert !IsRecordName(IGNORE) && Get(f, name) == Get(g, name);
      }
    }
    SameLookupsSameMap(a, b);
  }
}
