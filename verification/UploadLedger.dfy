/** The per-path bookkeeping of `RemotePipeline::Impl`: every block it runs under `state_mutex`. */
module UploadLedger {

  /** A path together with the version one submit gave it. */
  type Id = (string, nat)

  datatype Ledger = Ledger(
    versions: map<string, nat>,
    pending: map<string, nat>,
    uploaded: map<string, nat>,
    errors: map<string, string>)
  {
    /** What every reachable ledger satisfies. */
    ghost predicate Valid() {
      && (forall p :: p in pending ==> p in versions && pending[p] == versions[p])
      && (forall p :: p in uploaded ==> p in versions && uploaded[p] == versions[p])
      && (forall p :: p in versions ==> versions[p] >= 1)
      && errors.Keys <= versions.Keys
      && pending.Keys !! uploaded.Keys
      && pending.Keys !! errors.Keys
      && uploaded.Keys !! errors.Keys
    }

    predicate Contains(path: string) {
      path in uploaded && path in versions && uploaded[path] == versions[path]
    }

    /** The test a submit makes before it takes a new version. */
    predicate Duplicate(path: string) {
      path in pending || Contains(path)
    }

    function NextVersion(path: string): nat {
      (if path in versions then versions[path] else 0) + 1
    }

    function Admit(path: string, overRss: bool): Ledger {
      if Duplicate(path) then this
      else
        var v := NextVersion(path);
        var renewed := Ledger(versions[path := v], pending, uploaded - {path}, errors - {path});
        if overRss then renewed.(errors := renewed.errors[path := RSS_ERROR])
        else renewed.(pending := pending[path := v])
    }

    function FinalizeSuccess(id: Id): Ledger {
      var (path, v) := id;
      if path in versions && versions[path] == v
      then Ledger(versions, pending - {path}, uploaded[path := v], errors - {path})
      else this
    }

    function FinalizeError(id: Id, error: string): Ledger {
      var (path, v) := id;
      if path in versions && versions[path] == v
      then this.(pending := pending - {path}, errors := errors[path := error])
      else this
    }

    function EvictNotice(id: Id): Ledger {
      var (path, v) := id;
      if path in pending && pending[path] == v then this.(pending := pending - {path}) else this
    }
  }

  const RSS_ERROR := "remote upload skipped: process RSS limit exceeded"
  const EMPTY := Ledger(map[], map[], map[], map[])

  /** Whether a map holds exactly this version of a path, as a count. */
  ghost function In(m: map<string, nat>, id: Id): nat {
    if id.0 in m && m[id.0] == id.1 then 1 else 0
  }

  /** Whether a version has been handed out, as a count. */
  ghost function Issued(versions: map<string, nat>, id: Id): nat {
    if id.0 in versions && 1 <= id.1 <= versions[id.0] then 1 else 0
  }

  ghost function Same(a: Id, b: Id): nat {
    if a == b then 1 else 0
  }

  /** `id` is no longer pending; every other pending version still is. */
  ghost predicate Settled(l: Ledger, l': Ledger, id: Id) {
    && l'.Valid() && l'.versions == l.versions
    && forall o: Id :: In(l.pending, o) == In(l'.pending, o) + Same(o, id)
  }

  /** An admitted submit hands out exactly one new version and, unless it is over the memory
      limit, makes exactly that version pending; nothing else moves. A path already pending or
      uploaded is left alone, so an uploaded path stays uploaded. */
  lemma AdmitKeeps(l: Ledger, path: string, overRss: bool)
    requires l.Valid()
    ensures var l' := l.Admit(path, overRss); var id := (path, l.NextVersion(path));
            && l'.Valid()
            && l'.uploaded == l.uploaded
            && (l.Duplicate(path) ==> l' == l)
            && (!l.Duplicate(path) ==>
                  forall o: Id ::
                    && Issued(l'.versions, o) == Issued(l.versions, o) + Same(o, id)
                    && In(l'.pending, o) == In(l.pending, o) + if overRss then 0 else Same(o, id))
            && (!l.Duplicate(path) ==> (path in l'.errors <==> overRss))
            && (forall p :: p != path ==> (p in l'.errors <==> p in l.errors))
  {
    if !l.Duplicate(path) {
      assert path !in l.uploaded;
      assert l.uploaded - {path} == l.uploaded;
    }
  }

  /** A pending version that succeeds leaves `pending` and enters `uploaded`, alone. */
  lemma SuccessKeeps(l: Ledger, id: Id)
    requires l.Valid() && In(l.pending, id) == 1
    ensures var l' := l.FinalizeSuccess(id);
            && Settled(l, l', id) && l'.Contains(id.0)
            && (forall o: Id :: In(l'.uploaded, o) == In(l.uploaded, o) + Same(o, id))
            && (forall p :: p != id.0 ==> (p in l'.errors <==> p in l.errors))
  {
  }

  /** A pending version that fails leaves `pending` alone and leaves an error for its path. */
  lemma ErrorKeeps(l: Ledger, id: Id, error: string)
    requires l.Valid() && In(l.pending, id) == 1
    ensures var l' := l.FinalizeError(id, error);
            && Settled(l, l', id) && id.0 in l'.errors && l'.uploaded == l.uploaded
            && (forall p :: p != id.0 ==> (p in l'.errors <==> p in l.errors))
  {
  }

  /** A pending version that is evicted leaves `pending` alone and leaves no error. */
  lemma EvictKeeps(l: Ledger, id: Id)
    requires l.Valid() && In(l.pending, id) == 1
    ensures var l' := l.EvictNotice(id);
            && Settled(l, l', id) && l'.uploaded == l.uploaded && l'.errors == l.errors
  {
  }

  /** The record of `RemotePipeline::Impl`; each method is one block under `state_mutex`. */
  class RemotePipeline {
    var versions: map<string, nat>
    var pendingVersions: map<string, nat>
    var uploadedVersions: map<string, nat>
    var errors: map<string, string>

    ghost function View(): Ledger
      reads this
    {
      Ledger.Ledger(versions, pendingVersions, uploadedVersions, errors)
    }

    constructor ()
      ensures View() == EMPTY && View().Valid()
    {
      versions, pendingVersions, uploadedVersions, errors := map[], map[], map[], map[];
    }

    /** The locked part of `Submit`: zero means the submit was dropped as a duplicate. */
    method Submit(path: string, overRss: bool) returns (version: nat, enqueue: bool)
      requires View().Valid()
      modifies this
      ensures View() == old(View()).Admit(path, overRss) && View().Valid()
      ensures (version == 0) == old(View()).Duplicate(path)
      ensures version > 0 ==> version == old(View()).NextVersion(path)
      ensures enqueue == (version > 0 && !overRss)
      ensures enqueue ==> In(View().pending, (path, version)) == 1
    {
      ghost var before := View();
      AdmitKeeps(before, path, overRss);
      var alreadyPending := path in pendingVersions;
      var alreadyUploaded :=
        path in uploadedVersions && path in versions && uploadedVersions[path] == versions[path];
      if alreadyPending || alreadyUploaded {
        return 0, false;
      }
      version := (if path in versions then versions[path] else 0) + 1;
      versions := versions[path := version];
      uploadedVersions := uploadedVersions - {path};
      errors := errors - {path};
      if overRss {
        errors := errors[path := RSS_ERROR];
        assert View() == before.Admit(path, overRss);
        return version, false;
      }
      pendingVersions := pendingVersions[path := version];
      enqueue := true;
      assert View() == before.Admit(path, overRss);
    }

    /** A pending version becomes the uploaded one, so the path is present and a further submit of
        it is dropped. */
    method FinalizeSuccessLocked(path: string, version: nat)
      modifies this
      ensures View() == old(View()).FinalizeSuccess((path, version))
      ensures old(View()).Valid() ==> View().Valid()
      ensures old(View()).Valid() && In(old(View()).pending, (path, version)) == 1 ==>
                && Settled(old(View()), View(), (path, version))
                && View().Contains(path) && View().Duplicate(path)
                && forall o: Id :: In(View().uploaded, o) == In(old(View()).uploaded, o) + Same(o, (path, version))
    {
      ghost var before := View();
      if before.Valid() && In(before.pending, (path, version)) == 1 {
        SuccessKeeps(before, (path, version));
      }
      if path in versions && versions[path] == version {
        uploadedVersions := uploadedVersions[path := version];
        pendingVersions := pendingVersions - {path};
        errors := errors - {path};
      }
    }

    /** A pending version leaves an error and its path may be submitted again. The ledger stays
        consistent exactly if the version is not the uploaded one. */
    method FinalizeErrorLocked(path: string, version: nat, error: string)
      modifies this
      ensures View() == old(View()).FinalizeError((path, version), error)
      ensures old(View()).Valid() ==> (View().Valid() <==> In(old(View()).uploaded, (path, version)) == 0)
      ensures old(View()).Valid() && In(old(View()).pending, (path, version)) == 1 ==>
                && Settled(old(View()), View(), (path, version))
                && path in errors && !View().Duplicate(path) && View().uploaded == old(View()).uploaded
    {
      ghost var before := View();
      if before.Valid() && In(before.pending, (path, version)) == 1 {
        ErrorKeeps(before, (path, version), error);
      }
      if path in versions && versions[path] == version {
        errors := errors[path := error];
        pendingVersions := pendingVersions - {path};
      }
    }

    /** A pending version is forgotten without an error and its path may be submitted again. */
    method HandleEvictedTask(path: string, version: nat)
      modifies this
      ensures View() == old(View()).EvictNotice((path, version))
      ensures old(View()).Valid() ==> View().Valid()
      ensures old(View()).Valid() && In(old(View()).pending, (path, version)) == 1 ==>
                && Settled(old(View()), View(), (path, version))
                && !View().Duplicate(path) && View().uploaded == old(View()).uploaded
                && View().errors == old(View()).errors
      ensures In(old(View()).pending, (path, version)) == 0 ==> View() == old(View())
    {
      ghost var before := View();
      if before.Valid() && In(before.pending, (path, version)) == 1 {
        EvictKeeps(before, (path, version));
      }
      if path in pendingVersions && pendingVersions[path] == version {
        pendingVersions := pendingVersions - {path};
      }
    }

    /** In a consistent ledger a path is present exactly if some version of it was uploaded, and then
        nothing is pending for it and it has no error. */
    method Contains(path: string) returns (present: bool)
      ensures present == View().Contains(path)
      ensures View().Valid() ==> (present <==> path in View().uploaded)
      ensures View().Valid() && present ==> path !in View().pending && path !in View().errors
    {
      present := path in uploadedVersions && path in versions && uploadedVersions[path] == versions[path];
    }
  }
}
