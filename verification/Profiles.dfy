/** Label matching (labelutil.Match). */
module Labels {
  import opened Text

  function Folded(labels: seq<string>): set<string> {
    set l | l in labels :: Fold(l)
  }

  /** Match(wanted, offered): every wanted label is offered, up to case and surrounding blanks. */
  method Match(wanted: seq<string>, offered: seq<string>) returns (ok: bool)
    ensures ok <==> Folded(wanted) <= Folded(offered)
  {
    if |wanted| == 0 { return true; }
    var available: set<string> := {};
    for i := 0 to |offered|
      invariant available == Folded(offered[..i])
    {
      assert offered[..i + 1] == offered[..i] + [offered[i]];
      available := available + {Fold(offered[i])};
    }
    assert offered[..|offered|] == offered;
    for i := 0 to |wanted|
      invariant forall j :: 0 <= j < i ==> Fold(wanted[j]) in available
    {
      if Fold(wanted[i]) !in available {
        assert Fold(wanted[i]) in Folded(wanted);
        return false;
      }
    }
    return true;
  }
}

/** Runner profiles: which one serves a job, and how the profiles a catalogue
    manages are brought up to date. */
module Profiles {
  import opened Common
  import opened Text
  import opened Labels

  /** What the catalogue defines. */
  datatype Spec = Spec(labels: seq<string>, required: seq<string>, template: string, defaultTemplate: string, group: string, priority: int)

  /** What an operator may set on a managed profile. */
  datatype Controls = Controls(maxConcurrency: int, minIdle: int, enabled: bool)

  datatype Profile = Profile(name: string, spec: Spec, controls: Controls, owner: string, revision: int, updatedAt: int)

  type Table = map<string, Profile>

  // ---- Choosing a profile for a job -------------------------------------------------------

  predicate Eligible(p: Profile, job: seq<string>) {
    p.controls.enabled && Folded(p.spec.required) <= Folded(job) <= Folded(p.spec.labels)
  }

  predicate Better(a: Profile, b: Profile) {
    if a.spec.priority != b.spec.priority then a.spec.priority > b.spec.priority
    else if |a.spec.labels| != |b.spec.labels| then |a.spec.labels| > |b.spec.labels|
    else Precedes(a.name, b.name)
  }

  /** `p` serves the job and no profile would serve it better. */
  predicate IsBest(profiles: seq<Profile>, job: seq<string>, p: Profile) {
    p in profiles && Eligible(p, job) && forall q :: q in profiles && Eligible(q, job) ==> !Better(q, p)
  }

  lemma BetterIsTransitive(a: Profile, b: Profile, c: Profile)
    requires Better(a, b) && Better(b, c)
    ensures Better(a, c)
  {
    if Precedes(a.name, b.name) && Precedes(b.name, c.name) { PrecedesIsTransitive(a.name, b.name, c.name); }
  }

  lemma BetterIsStrict(a: Profile)
    ensures !Better(a, a)
  {
    PrecedesIsStrict(a.name);
  }

  lemma BetterIsTotal(a: Profile, b: Profile)
    requires a.name != b.name
    ensures Better(a, b) || Better(b, a)
  {
    PrecedesIsTotal(a.name, b.name);
  }

  /** selectMatchingProfile: nothing exactly when no profile is eligible, otherwise a best one. */
  method SelectMatchingProfile(profiles: seq<Profile>, job: seq<string>) returns (selected: Option<Profile>)
    ensures selected.None? <==> forall p :: p in profiles ==> !Eligible(p, job)
    ensures selected.Some? ==> IsBest(profiles, job, selected.value)
    ensures selected.Some? ==> forall q :: q in profiles && Eligible(q, job) ==>
              && q.spec.priority <= selected.value.spec.priority
              && (q.spec.priority == selected.value.spec.priority ==> |q.spec.labels| <= |selected.value.spec.labels|)
              && (q.spec.priority == selected.value.spec.priority && |q.spec.labels| == |selected.value.spec.labels| ==>
                    !Precedes(q.name, selected.value.name))
  {
    var candidates: seq<Profile> := [];
    for i := 0 to |profiles|
      invariant forall p :: p in candidates <==> p in profiles[..i] && Eligible(p, job)
    {
      assert profiles[..i + 1] == profiles[..i] + [profiles[i]];
      var requiredOk := Match(profiles[i].spec.required, job);
      var labelsOk := Match(job, profiles[i].spec.labels);
      if profiles[i].controls.enabled && requiredOk && labelsOk {
        candidates := candidates + [profiles[i]];
      }
    }
    assert profiles[..|profiles|] == profiles;
    if |candidates| == 0 { return None; }
    var best := First(candidates);
    selected := Some(best);
  }

  /** The element sort.Slice puts first. */
  method First(candidates: seq<Profile>) returns (best: Profile)
    requires candidates != []
    ensures best in candidates && forall p :: p in candidates ==> !Better(p, best)
  {
    best := candidates[0];
    BetterIsStrict(best);
    for i := 1 to |candidates|
      invariant best in candidates && forall j :: 0 <= j < i ==> !Better(candidates[j], best)
    {
      BetterIsStrict(candidates[i]);
      if Better(candidates[i], best) {
        forall j | 0 <= j < i ensures !Better(candidates[j], candidates[i]) {
          if Better(candidates[j], candidates[i]) { BetterIsTransitive(candidates[j], candidates[i], best); }
        }
        best := candidates[i];
      }
    }
  }

  ghost predicate UniqueNames(profiles: seq<Profile>) {
    forall p, q :: p in profiles && q in profiles && p.name == q.name ==> p == q
  }

  /** With unique names the choice is unique, whatever order the profiles come in. */
  lemma ChoiceIsUnique(a: seq<Profile>, b: seq<Profile>, job: seq<string>, p: Profile, q: Profile)
    requires UniqueNames(a) && multiset(a) == multiset(b)
    requires IsBest(a, job, p) && IsBest(b, job, q)
    ensures p == q
  {
    assert q in multiset(b) && q in a && p in multiset(a) && p in b;
    if p.name != q.name { BetterIsTotal(p, q); }
  }

  // ---- Reconciling managed profiles ---------------------------------------------------------------

  datatype Conflict = Conflict(name: string, existingOwner: string)

  datatype AuditEvent = AuditEvent(name: string, owner: string, revision: int)

  datatype State = State(rows: Table, audit: seq<AuditEvent>, conflicts: seq<Conflict>)

  function Trimmed(p: Profile): Profile {
    p.(name := Trim(p.name), owner := Trim(p.owner))
  }

  /** ValidateProfile, on the trimmed name */
  predicate Savable(p: Profile) {
    p.name != "" && '/' !in p.name && p.name != "." && p.name != ".." && Folded(p.spec.required) <= Folded(p.spec.labels)
  }

  /** What the loop checks of one (trimmed) catalogue entry. */
  predicate Valid(p: Profile) {
    Savable(p) && p.owner != ""
  }

  function Audited(p: Profile): AuditEvent {
    AuditEvent(p.name, p.owner, p.revision)
  }

  /** One catalogue entry. */
  function Reconciled(s: State, p: Profile, now: int): State {
    if p.name !in s.rows then s.(rows := s.rows[p.name := p.(updatedAt := now)], audit := s.audit + [Audited(p)])
    else
      var row := s.rows[p.name];
      if row.owner != p.owner then s.(conflicts := s.conflicts + [Conflict(p.name, row.owner)])
      else if row.revision >= p.revision then s
      else s.(rows := s.rows[p.name := row.(spec := p.spec, revision := p.revision, updatedAt := now)], audit := s.audit + [Audited(p)])
  }

  function ReconciledAll(s: State, catalogue: seq<Profile>, now: int): State {
    if catalogue == [] then s
    else Reconciled(ReconciledAll(s, catalogue[..|catalogue| - 1], now), Trimmed(catalogue[|catalogue| - 1]), now)
  }

  predicate AllValid(catalogue: seq<Profile>) {
    forall p :: p in catalogue ==> Valid(Trimmed(p))
  }

  datatype SaveResult = Saved(row: Profile) | Invalid | Conflicted

  /** The table of profiles and its audit log. */
  class ProfileStore {
    var rows: Table
    var audit: seq<AuditEvent>

    constructor ()
      ensures rows == map[] && audit == []
    {
      rows, audit := map[], [];
    }

    /** ReconcileManagedProfiles: one transaction; an invalid entry anywhere undoes all of it. */
    method Reconcile(catalogue: seq<Profile>, now: int) returns (ok: bool, conflicts: seq<Conflict>)
      modifies this
      ensures ok <==> AllValid(catalogue)
      ensures ok ==> State(rows, audit, conflicts) == ReconciledAll(State(old(rows), old(audit), []), catalogue, now)
      ensures !ok ==> rows == old(rows) && audit == old(audit) && conflicts == []
    {
      ghost var before := State(rows, audit, []);
      var txRows, txAudit := rows, audit;
      conflicts := [];
      for i := 0 to |catalogue|
        invariant rows == old(rows) && audit == old(audit)
        invariant AllValid(catalogue[..i])
        invariant State(txRows, txAudit, conflicts) == ReconciledAll(before, catalogue[..i], now)
      {
        assert catalogue[..i + 1] == catalogue[..i] + [catalogue[i]];
        var profile := Trimmed(catalogue[i]);
        if profile.name == "" || '/' in profile.name || profile.name == "." || profile.name == ".." || profile.owner == "" {
          return false, [];
        }
        var labelsOk := Match(profile.spec.required, profile.spec.labels);
        if !labelsOk { return false, []; }
        if profile.name in txRows {
          var existing := txRows[profile.name];
          if existing.owner == "" || existing.owner != profile.owner {
            conflicts := conflicts + [Conflict(profile.name, existing.owner)];
            continue;
          }
          if existing.revision >= profile.revision { continue; }
          txRows := txRows[profile.name := existing.(spec := profile.spec, revision := profile.revision, updatedAt := now)];
        } else {
          txRows := txRows[profile.name := profile.(updatedAt := now)];
        }
        txAudit := txAudit + [AuditEvent(profile.name, profile.owner, profile.revision)];
      }
      assert catalogue[..|catalogue|] == catalogue;
      rows, audit := txRows, txAudit;
      ok := true;
    }

    /** UpsertProfileIfUnchanged: a new profile only where there is none, a changed
        one only over the row that was read. A save that succeeds makes every
        other save based on the same read conflict. */
    method SaveIfUnchanged(profile: Profile, expected: Option<int>, now: int) returns (result: SaveResult)
      modifies `rows
      ensures result.Invalid? <==> !Savable(profile.(name := Trim(profile.name)))
      ensures result.Saved? ==>
                && (if expected.None? then Trim(profile.name) !in old(rows)
                    else Trim(profile.name) in old(rows) && old(rows)[Trim(profile.name)].updatedAt == expected.value)
                && rows == old(rows)[Trim(profile.name) := result.row]
                && result.row == profile.(name := Trim(profile.name), updatedAt := result.row.updatedAt)
                && now <= result.row.updatedAt && (expected.Some? ==> expected.value < result.row.updatedAt)
      ensures result.Conflicted? ==>
                if expected.None? then Trim(profile.name) in old(rows)
                else !(Trim(profile.name) in old(rows) && old(rows)[Trim(profile.name)].updatedAt == expected.value)
      ensures !result.Saved? ==> rows == old(rows)
    {
      var name := Trim(profile.name);
      if name == "" || '/' in name || name == "." || name == ".." { return Invalid; }
      var labelsOk := Match(profile.spec.required, profile.spec.labels);
      if !labelsOk { return Invalid; }
      var stamp := now;
      if expected.Some? && now < expected.value + 1_000_000 {
        stamp := expected.value + 1_000_000;   // one millisecond, what the coarsest database keeps
      }
      var row := profile.(name := name, updatedAt := stamp);
      if expected.Some? {
        if name !in rows || rows[name].updatedAt != expected.value { return Conflicted; }
      } else if name in rows {
        return Conflicted;
      }
      rows := rows[name := row];
      result := Saved(row);
    }
  }

  // ---- What a run leaves alone ----------------------------------------------------------------------

  /** From `before` to `after` a managed row kept its owner and controls and did not fall back. */
  predicate Upgrades(before: Profile, after: Profile) {
    after.(spec := before.spec, revision := before.revision, updatedAt := before.updatedAt) == before && before.revision <= after.revision
  }

  /** The row is what the (trimmed) entry says, apart from the operator's controls. */
  predicate Defines(p: Profile, row: Profile) {
    p.name == row.name && p.owner == row.owner && p.spec == row.spec && p.revision == row.revision
  }

  lemma OneEntry(s: State, p: Profile, now: int, name: string)
    requires name in Reconciled(s, p, now).rows && (name in s.rows ==> s.rows[name].name == name)
    ensures
      var after := Reconciled(s, p, now).rows[name];
      && after.name == name
      && (name in s.rows ==> Upgrades(s.rows[name], after))
      && ((name in s.rows && after == s.rows[name]) || Defines(p, after))
  {
  }

  /** Every row is stored under its own name. */
  ghost predicate Keyed(rows: Table) {
    forall name :: name in rows ==> rows[name].name == name
  }

  /** Rows are only added or upgraded, and whatever changed is what the catalogue
      says, for a profile the catalogue entry owns. */
  lemma {:induction false} OnlyOwnRowsChange(s: State, catalogue: seq<Profile>, now: int, name: string)
    requires Keyed(s.rows) && name in ReconciledAll(s, catalogue, now).rows
    ensures
      var after := ReconciledAll(s, catalogue, now).rows[name];
      && after.name == name
      && (name in s.rows ==> Upgrades(s.rows[name], after))
      && ((name in s.rows && after == s.rows[name]) || exists p :: p in catalogue && Defines(Trimmed(p), after))
  {
    if catalogue != [] {
      var front, last := catalogue[..|catalogue| - 1], catalogue[|catalogue| - 1];
      assert catalogue == front + [last];
      assert last in catalogue && forall p :: p in front ==> p in catalogue;
      var mid := ReconciledAll(s, front, now);
      RunSettles(s, front, now);
      if name in mid.rows { OnlyOwnRowsChange(s, front, now, name); }
      OneEntry(mid, Trimmed(last), now, name);
    }
  }

  // ---- Running it again -------------------------------------------------------------------------------

  /** Nothing is left to do for this (trimmed) entry. */
  predicate Settled(rows: Table, p: Profile) {
    p.name in rows && (rows[p.name].owner == p.owner ==> rows[p.name].revision >= p.revision)
  }

  /** Later entries take no row away, and keep owners and revisions. */
  predicate Extends(rows: Table, rows': Table) {
    forall name :: name in rows ==> name in rows' && rows'[name].owner == rows[name].owner && rows[name].revision <= rows'[name].revision
  }

  /** The conflicts a settled table reports. */
  function ConflictsOf(rows: Table, catalogue: seq<Profile>): seq<Conflict> {
    if catalogue == [] then []
    else
      var p := Trimmed(catalogue[|catalogue| - 1]);
      ConflictsOf(rows, catalogue[..|catalogue| - 1]) +
      (if p.name in rows && rows[p.name].owner != p.owner then [Conflict(p.name, rows[p.name].owner)] else [])
  }

  lemma {:induction false} ConflictsStay(rows: Table, rows': Table, catalogue: seq<Profile>)
    requires Extends(rows, rows') && forall p :: p in catalogue ==> Settled(rows, Trimmed(p))
    ensures ConflictsOf(rows', catalogue) == ConflictsOf(rows, catalogue)
  {
    if catalogue != [] {
      var front, last := catalogue[..|catalogue| - 1], catalogue[|catalogue| - 1];
      assert catalogue == front + [last] && last in catalogue;
      ConflictsStay(rows, rows', front);
      assert Settled(rows, Trimmed(last));
    }
  }

  /** One run settles every entry and reports exactly the conflicts of the table it leaves. */
  lemma {:induction false} RunSettles(s: State, catalogue: seq<Profile>, now: int)
    ensures
      var s' := ReconciledAll(s, catalogue, now);
      && Extends(s.rows, s'.rows)
      && (forall p :: p in catalogue ==> Settled(s'.rows, Trimmed(p)))
      && s'.conflicts == s.conflicts + ConflictsOf(s'.rows, catalogue)
  {
    if catalogue != [] {
      var front, last := catalogue[..|catalogue| - 1], catalogue[|catalogue| - 1];
      assert catalogue == front + [last];
      RunSettles(s, front, now);
      var mid := ReconciledAll(s, front, now);
      var p := Trimmed(last);
      var s' := Reconciled(mid, p, now);
      assert Extends(mid.rows, s'.rows) && Settled(s'.rows, p);
      ConflictsStay(mid.rows, s'.rows, front);
      forall q | q in catalogue ensures Settled(s'.rows, Trimmed(q)) {
        assert q == last || Settled(mid.rows, Trimmed(q));
      }
    } else {
      assert s.conflicts + [] == s.conflicts;
    }
  }

  /** On a settled table a run changes nothing. */
  lemma {:induction false} SettledRunIsIdle(s: State, catalogue: seq<Profile>, now: int)
    requires forall p :: p in catalogue ==> Settled(s.rows, Trimmed(p))
    ensures
      var s' := ReconciledAll(s, catalogue, now);
      s'.rows == s.rows && s'.audit == s.audit && s'.conflicts == s.conflicts + ConflictsOf(s.rows, catalogue)
  {
    if catalogue != [] {
      var front, last := catalogue[..|catalogue| - 1], catalogue[|catalogue| - 1];
      assert catalogue == front + [last] && last in catalogue;
      SettledRunIsIdle(s, front, now);
      assert Settled(s.rows, Trimmed(last));
    } else {
      assert s.conflicts + [] == s.conflicts;
    }
  }

  /** Reconciling is idempotent for every table and catalogue: at whatever time it
      comes, a second run changes no row, audits nothing and reports the same conflicts. */
  lemma ReconcileIsIdempotent(rows: Table, audit: seq<AuditEvent>, catalogue: seq<Profile>, now: int, later: int)
    ensures
      var first := ReconciledAll(State(rows, audit, []), catalogue, now);
      ReconciledAll(State(first.rows, first.audit, []), catalogue, later) == first
  {
    var first := ReconciledAll(State(rows, audit, []), catalogue, now);
    RunSettles(State(rows, audit, []), catalogue, now);
    SettledRunIsIdle(State(first.rows, first.audit, []), catalogue, later);
  }

  // ---- The audit log -----------------------------------------------------------------------------------

  predicate TellsOf(audit: seq<AuditEvent>, from: nat, name: string) {
    exists i :: from <= i < |audit| && audit[i].name == name
  }

  /** The row was added or changed. */
  predicate Changed(rows: Table, rows': Table, name: string) {
    name in rows' && (name in rows ==> rows'[name] != rows[name])
  }

  lemma TellsOneMore(audit: seq<AuditEvent>, from: nat, e: AuditEvent, name: string)
    requires from <= |audit|
    ensures TellsOf(audit + [e], from, name) <==> TellsOf(audit, from, name) || e.name == name
  {
    var more := audit + [e];
    if i :| from <= i < |audit| && audit[i].name == name { assert more[i].name == name; }
    if e.name == name { assert more[|audit|].name == name; }
  }

  /** A run tells in the audit log of exactly the rows it adds or changes, however
      often the catalogue names them. */
  lemma {:induction false} AuditTellsOfChanges(s: State, catalogue: seq<Profile>, now: int, name: string)
    ensures
      var s' := ReconciledAll(s, catalogue, now);
      && s.audit <= s'.audit
      && (TellsOf(s'.audit, |s.audit|, name) <==> Changed(s.rows, s'.rows, name))
      && (name in s.rows && name in s'.rows && s'.rows[name] != s.rows[name] ==> s'.rows[name].revision > s.rows[name].revision)
  {
    if catalogue != [] {
      var front, last := catalogue[..|catalogue| - 1], Trimmed(catalogue[|catalogue| - 1]);
      AuditTellsOfChanges(s, front, now, name);
      RunSettles(s, front, now);
      var mid := ReconciledAll(s, front, now);
      var s' := Reconciled(mid, last, now);
      if s'.audit != mid.audit { TellsOneMore(mid.audit, |s.audit|, Audited(last), name); }
    }
  }
}
