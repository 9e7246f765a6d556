/** Enrollment and unenrollment as transactions over the credential files, config.toml and the policy cache
    (apps/resticpal-service/src/runtime/enrollment.rs with crates/resticpal-windows/src/credentials.rs,
    config_store.rs and atomic_file.rs). Failures of the operating system and the random part of a reference are
    nondeterministic; a journal records the disk after every persistent write. */
module Enrollment {
  import opened Common
  import opened Config

  type Reference = string
  type Secret = seq<byte>

  /** The management part of config.toml; `source` stands for its URLs, keys and identifiers. */
  datatype Management = Disabled | Signed(source: string, statusToken: Option<Reference>,
                                          enrollmentKey: Option<Reference>)

  /** config.toml; `rest` stands for the fields no enrollment touches. */
  datatype LocalConfig = LocalConfig(secretRefs: Option<map<SecretVariable, Reference>>, management: Management,
                                     rest: string)

  function Refs(config: LocalConfig): map<SecretVariable, Reference> {
    if config.secretRefs.Some? then config.secretRefs.value else map[]
  }

  function Tokens(config: LocalConfig): set<Reference> {
    match config.management
    case Disabled => {}
    case Signed(_, token, key) => Members(token) + Members(key)
  }

  function Members(reference: Option<Reference>): set<Reference> {
    if reference.Some? then {reference.value} else {}
  }

  /** Every credential the configuration needs. */
  function References(config: LocalConfig): set<Reference> {
    Tokens(config) + Refs(config).Values
  }

  /** What the server hands out. */
  datatype Pending = Pending(
    statusToken: Secret,
    privateKey: Secret,
    source: string,
    manifest: string,
    secrets: seq<(SecretVariable, Secret)>)

  /** managed-policy-cache.json: a manifest and the source it was fetched from. */
  datatype PolicyCache = PolicyCache(source: string, manifest: string)

  datatype Disk = Disk(credentials: map<Reference, Secret>, config: LocalConfig, cache: Option<PolicyCache>)

  /** The manifest a restart without a network runs under: the cached one, if it is of the configured source. */
  function OfflineManifest(disk: Disk): Option<string> {
    if disk.cache.Some? && disk.config.management.Signed? && disk.cache.value.source == disk.config.management.source
    then Some(disk.cache.value.manifest) else None
  }

  /** A restart from this disk finds every credential its configuration names. */
  predicate Intact(disk: Disk) {
    References(disk.config) <= disk.credentials.Keys
  }

  predicate AllIntact(journal: seq<Disk>) {
    forall i :: 0 <= i < |journal| ==> Intact(journal[i])
  }

  /** Every disk from the `from`-th on has this configuration and this cache. */
  predicate Stays(journal: seq<Disk>, from: nat, config: LocalConfig, cache: Option<PolicyCache>) {
    forall i :: from <= i < |journal| ==> journal[i].config == config && journal[i].cache == cache
  }

  /** Every disk from the `from`-th on is the old one still, or has the new configuration and the old or the new cache:
      the cache never runs ahead of the configuration. */
  predicate Replaces(journal: seq<Disk>, from: nat, config: LocalConfig, cache: Option<PolicyCache>,
                     newConfig: LocalConfig, newCache: Option<PolicyCache>) {
    forall i :: from <= i < |journal| ==>
      || (journal[i].config == config && journal[i].cache == cache)
      || (journal[i].config == newConfig && (journal[i].cache == cache || journal[i].cache == newCache))
  }

  lemma StaysLonger(first: seq<Disk>, second: seq<Disk>, from: nat, config: LocalConfig, cache: Option<PolicyCache>)
    requires from <= |first| && first <= second
    requires Stays(first, from, config, cache) && Stays(second, |first|, config, cache)
    ensures Stays(second, from, config, cache)
  {
  }

  /** Disks before the replacement, during it, and after it. */
  lemma ReplacedInOrder(before: seq<Disk>, during: seq<Disk>, after: seq<Disk>, from: nat, config: LocalConfig,
                        cache: Option<PolicyCache>, newConfig: LocalConfig, newCache: Option<PolicyCache>,
                        written: Option<PolicyCache>)
    requires from <= |before| && before <= during <= after && Stays(before, from, config, cache)
    requires Replaces(during, |before|, config, cache, newConfig, newCache)
    requires Stays(after, |during|, newConfig, written) && (written == cache || written == newCache)
    ensures Replaces(after, from, config, cache, newConfig, newCache)
  {
    assert forall i :: 0 <= i < |during| ==> after[i] == during[i];
    assert forall i :: 0 <= i < |before| ==> after[i] == before[i];
  }

  /** No credential of `before` is missing or changed in `after`. */
  predicate Grew(before: map<Reference, Secret>, after: map<Reference, Secret>) {
    forall r :: r in before ==> r in after && after[r] == before[r]
  }

  /** What enrollment retires: the old tokens and the old secrets of the replaced variables. */
  function Retired(config: LocalConfig, variables: set<SecretVariable>): set<Reference> {
    Tokens(config) + set v | v in variables && v in Refs(config) :: Refs(config)[v]
  }

  /** The old secrets enrollment leaves in place. */
  function Kept(config: LocalConfig, variables: set<SecretVariable>): set<Reference> {
    set v | v in Refs(config) && v !in variables :: Refs(config)[v]
  }

  /** No reference serves twice in the configuration. */
  predicate PairwiseDistinct(config: LocalConfig) {
    && (forall v, u :: v in Refs(config) && u in Refs(config) && v != u ==> Refs(config)[v] != Refs(config)[u])
    && Tokens(config) !! Refs(config).Values
  }

  lemma DistinctRetiresNothingKept(config: LocalConfig, variables: set<SecretVariable>)
    requires PairwiseDistinct(config)
    ensures Retired(config, variables) !! Kept(config, variables)
  {
    forall r | r in Kept(config, variables)
      ensures r !in Retired(config, variables)
    {
      var v :| v in Refs(config) && v !in variables && Refs(config)[v] == r;
      assert r in Refs(config).Values;
    }
  }

  predicate DistinctVariables(secrets: seq<(SecretVariable, Secret)>) {
    forall i, j :: 0 <= i < j < |secrets| ==> secrets[i].0 != secrets[j].0
  }

  function Variables(secrets: seq<(SecretVariable, Secret)>): set<SecretVariable> {
    set i | 0 <= i < |secrets| :: secrets[i].0
  }

  const REFERENCE_GENERATION_ATTEMPTS := 8

  class Machine {
    var credentials: map<Reference, Secret>
    var saved: LocalConfig
    var local: LocalConfig
    var effective: EffectiveConfig
    var cache: Option<PolicyCache>
    ghost var journal: seq<Disk>

    constructor (credentials: map<Reference, Secret>, config: LocalConfig, cache: Option<PolicyCache>,
                 effective: EffectiveConfig)
      requires Intact(Disk(credentials, config, cache))
      ensures Valid() && Now() == Disk(credentials, config, cache) && this.effective == effective
    {
      this.credentials := credentials;
      saved := config;
      local := config;
      this.effective := effective;
      this.cache := cache;
      journal := [Disk(credentials, config, cache)];
    }

    ghost function Now(): Disk
      reads this
    {
      Disk(credentials, saved, cache)
    }

    /** Memory agrees with the disk, and every disk so far was intact. */
    ghost predicate Valid()
      reads this
    {
      && local == saved
      && Intact(Now())
      && AllIntact(journal)
    }

    /** Files are written to a temporary name and moved; protecting the moved file can still fail. `moved` says
        whether the credential is there. */
    method Put(reference: Reference, secret: Secret) returns (ok: bool, moved: bool)
      modifies this`credentials, this`journal
      ensures ok ==> moved
      ensures credentials == if moved then old(credentials)[reference := secret] else old(credentials)
      ensures journal == if moved then old(journal) + [Now()] else old(journal)
    {
      moved := *;
      ok := *;
      ok := ok && moved;
      if moved {
        credentials := credentials[reference := secret];
        journal := journal + [Now()];
      }
    }

    /** Stores a secret under a reference no credential has. */
    method PutNew(prefix: string, secret: Secret) returns (r: Option<Reference>, orphan: Option<Reference>)
      requires Valid()
      modifies this`credentials, this`journal
      ensures Valid()
      ensures r.Some? ==>
        orphan.None? && r.value !in old(credentials) && credentials == old(credentials)[r.value := secret]
      ensures orphan.Some? ==>
        orphan.value !in old(credentials) && credentials == old(credentials)[orphan.value := secret]
      ensures r.None? && orphan.None? ==> credentials == old(credentials)
      ensures old(journal) <= journal && Stays(journal, |old(journal)|, saved, cache)
    {
      for attempt := 0 to REFERENCE_GENERATION_ATTEMPTS
        invariant credentials == old(credentials) && journal == old(journal)
      {
        var suffix: string := *;
        var reference := prefix + "-" + suffix;
        if reference !in credentials {
          var ok, moved := Put(reference, secret);
          return if ok then Some(reference) else None, if moved && !ok then Some(reference) else None;
        }
      }
      return None, None;
    }

    /** Removing a missing credential succeeds; any other removal may fail. */
    method Remove(reference: Reference) returns (ok: bool)
      modifies this`credentials, this`journal
      ensures credentials == if ok then old(credentials) - {reference} else old(credentials)
      ensures journal == old(journal) + [Now()]
    {
      ok := *;
      if ok {
        credentials := credentials - {reference};
      }
      journal := journal + [Now()];
    }

    /** Replaces or removes the policy cache completely or not at all. */
    method ReplaceCache(next: Option<PolicyCache>)
      modifies this`cache, this`journal
      ensures cache == next || cache == old(cache)
      ensures journal == old(journal) + [Now()]
    {
      var ok: bool := *;
      if ok {
        cache := next;
      }
      journal := journal + [Now()];
    }

    /** Replaces config.toml completely or not at all. */
    method Save(config: LocalConfig) returns (ok: bool)
      modifies this`saved, this`journal
      ensures saved == if ok then config else old(saved)
      ensures journal == old(journal) + [Now()]
    {
      ok := *;
      if ok {
        saved := config;
      }
      journal := journal + [Now()];
    }

    method RemoveAll(references: seq<Reference>) returns (all: bool)
      modifies this`credentials, this`journal
      ensures credentials.Keys <= old(credentials).Keys && Grew(credentials, old(credentials))
      ensures old(credentials).Keys - (set r | r in references) <= credentials.Keys
      ensures all ==> credentials == old(credentials) - (set r | r in references)
      ensures old(journal) <= journal && Stays(journal, |old(journal)|, saved, cache)
      ensures References(saved) <= old(credentials).Keys - (set r | r in references) && AllIntact(old(journal))
              ==> AllIntact(journal)
    {
      all := true;
      var i := 0;
      while i < |references|
        invariant 0 <= i <= |references|
        invariant credentials.Keys <= old(credentials).Keys && Grew(credentials, old(credentials))
        invariant old(credentials).Keys - (set r | r in references[..i]) <= credentials.Keys
        invariant all ==> credentials == old(credentials) - (set r | r in references[..i])
        invariant old(journal) <= journal && Stays(journal, |old(journal)|, saved, cache)
        invariant References(saved) <= old(credentials).Keys - (set r | r in references) && AllIntact(old(journal))
                  ==> AllIntact(journal)
      {
        assert references[..i + 1] == references[..i] + [references[i]];
        var ok := Remove(references[i]);
        all := all && ok;
        i := i + 1;
      }
      assert references[..i] == references;
    }

    /** Stores the repository secrets one by one, recording each new reference. */
    method StoreSecrets(secrets: seq<(SecretVariable, Secret)>, base: map<SecretVariable, Reference>)
      returns (done: bool, refs: map<SecretVariable, Reference>, created: seq<Reference>, orphan: Option<Reference>)
      requires Valid() && DistinctVariables(secrets)
      modifies this`credentials, this`journal
      ensures Valid() && old(journal) <= journal && Stays(journal, |old(journal)|, saved, cache)
      ensures Created(old(credentials), credentials, created, orphan)
      ensures done ==> orphan.None? && Filed(credentials, old(credentials), refs, base, secrets)
    {
      hide Created, Filed, Stays, Intact, AllIntact, DistinctVariables;
      refs, created, orphan, done := base, [], None, true;
      ghost var before, start := credentials, journal;
      NothingStored(before, base, secrets, start, saved, cache);
      var i := 0;
      while i < |secrets| && done
        invariant 0 <= i <= |secrets|
        invariant Valid() && old(journal) <= journal && Stays(journal, |old(journal)|, saved, cache)
        invariant Created(before, credentials, created, orphan)
        invariant done ==> orphan.None? && Filed(credentials, before, refs, base, secrets[..i])
        decreases |secrets| - i, done
      {
        ghost var current, written := credentials, journal;
        var reference;
        reference, orphan := PutNew(ReferencePrefix(secrets[i].0), secrets[i].1);
        StaysLonger(written, journal, |start|, saved, cache);
        if reference.Some? {
          CreateOne(before, current, created, reference.value, secrets[i].1);
          CreatedGrew(before, current, created, None);
          FileOne(before, current, refs, base, secrets, i, reference.value);
          created := created + [reference.value];
          refs := refs[secrets[i].0 := reference.value];
          i := i + 1;
        } else {
          OrphanOne(before, current, credentials, created, orphan, secrets[i].1);
          done := false;
        }
      }
      assert secrets[..|secrets|] == secrets;
    }

    /** Stores the status token, the device key and the repository secrets. */
    method StoreMaterial(pending: Pending) returns (candidate: Option<LocalConfig>, created: seq<Reference>,
                         orphan: Option<Reference>)
      requires Valid() && DistinctVariables(pending.secrets)
      modifies this`credentials, this`journal
      ensures Valid() && old(journal) <= journal && Stays(journal, |old(journal)|, saved, cache)
      ensures Created(old(credentials), credentials, created, orphan)
      ensures candidate.Some? ==>
        orphan.None? && Enrolled(credentials, old(credentials), local, pending, candidate.value)
    {
      hide Created, Filed, Enrolled, Stays, Intact, AllIntact, DistinctVariables;
      candidate, created := None, [];
      ghost var before, start := credentials, journal;
      NothingStored(before, map[], [], start, saved, cache);
      var status;
      status, orphan := PutNew("management-token", pending.statusToken);
      if status.None? {
        OrphanOne(before, before, credentials, [], orphan, pending.statusToken);
        return;
      }
      CreateOne(before, before, [], status.value, pending.statusToken);
      created := [] + [status.value];
      ghost var second, written := credentials, journal;
      var key;
      key, orphan := PutNew("management-key", pending.privateKey);
      StaysLonger(written, journal, |start|, saved, cache);
      if key.None? {
        OrphanOne(before, second, credentials, created, orphan, pending.privateKey);
        return;
      }
      CreateOne(before, second, created, key.value, pending.privateKey);
      created := created + [key.value];
      ghost var third := credentials;
      written := journal;
      var done, refs, more;
      done, refs, more, orphan := StoreSecrets(pending.secrets, Refs(local));
      StaysLonger(written, journal, |start|, saved, cache);
      CreateMore(before, third, credentials, created, more, orphan);
      created := created + more;
      if done {
        candidate := Some(LocalConfig(Some(refs), Signed(pending.source, status, key), local.rest));
        Assembled(before, status.value, key.value, credentials, more, refs, local, pending);
      }
    }

    /** Replaces config.toml and then, once that is done, the policy cache. */
    method SaveThenCache(config: LocalConfig, newCache: Option<PolicyCache>) returns (ok: bool)
      requires Valid() && References(config) <= credentials.Keys
      modifies this`saved, this`local, this`cache, this`journal
      ensures Valid() && old(journal) <= journal
      ensures !ok ==> saved == old(saved) && cache == old(cache) && Stays(journal, |old(journal)|, saved, cache)
      ensures ok ==> saved == config && (cache == old(cache) || cache == newCache)
      ensures ok ==> Replaces(journal, |old(journal)|, old(saved), old(cache), config, newCache)
    {
      ok := Save(config);
      if ok {
        local := config;
        ReplaceCache(newCache);
      }
    }

    /** Commits an enrollment. `valid` and `next` are the verdicts on the candidate; `clean` says that every removal
        succeeded. */
    method CommitEnrollment(pending: Pending, valid: bool, next: Option<EffectiveConfig>)
      returns (ok: bool, clean: bool, orphan: Option<Reference>)
      requires Valid() && DistinctVariables(pending.secrets)
      modifies this
      ensures old(journal) <= journal && local == saved
      // The cache is written after the configuration, and only then.
      ensures !ok ==> cache == old(cache) && Stays(journal, |old(journal)|, saved, cache)
      ensures ok ==> cache == old(cache) || cache == Some(PolicyCache(pending.source, pending.manifest))
      ensures ok ==> Replaces(journal, |old(journal)|, old(saved), old(cache), saved,
                              Some(PolicyCache(pending.source, pending.manifest)))
      // A failed enrollment changed nothing but, at most, one credential nothing refers to.
      ensures !ok ==> saved == old(saved) && effective == old(effective) && Valid()
      ensures !ok && clean ==>
        Grew(old(credentials), credentials) && credentials.Keys == old(credentials).Keys + Members(orphan)
      ensures orphan.Some? ==> !ok && orphan.value !in old(credentials)
      // A committed one holds every new secret, keeps the other references and retires the replaced ones.
      ensures ok ==> next == Some(effective) && Enrolled(credentials, old(credentials), old(saved), pending, saved)
      ensures ok && clean ==> Retired(old(saved), Variables(pending.secrets)) !! credentials.Keys
      // Stopped between any two writes, the disk is intact, exactly when nothing retired is still in use.
      ensures Retired(old(saved), Variables(pending.secrets)) !! Kept(old(saved), Variables(pending.secrets)) ==>
              Valid()
      ensures
        && ok && clean
        && !(Retired(old(saved), Variables(pending.secrets)) !! Kept(old(saved), Variables(pending.secrets)))
        ==> !Intact(Now())
    {
      hide Created, Enrolled, Stays, Replaces, AllIntact;
      ghost var before, start, variables := credentials, journal, Variables(pending.secrets);
      var previous := local;
      var candidate, created;
      candidate, created, orphan := StoreMaterial(pending);
      ghost var stored, written := credentials, journal;
      OrphanIsNew(before, stored, created, orphan);
      ok := candidate.Some? && valid && next.Some?;
      ghost var newCache := Some(PolicyCache(pending.source, pending.manifest));
      if ok {
        EnrolledNeeds(stored, before, previous, pending, candidate.value);
        ok := SaveThenCache(candidate.value, Some(PolicyCache(pending.source, pending.manifest)));
      }
      ghost var settled := journal;
      if !ok {
        if candidate.Some? && valid && next.Some? {
          StaysLonger(written, settled, |start|, saved, cache);
        }
        RollbackSpares(before, stored, created, orphan, saved);
        clean := RemoveAll(created);
        StaysLonger(settled, journal, |start|, saved, cache);
        RolledBack(before, stored, credentials, created, orphan, clean);
        return;
      }
      effective := next.value;
      clean := RetireReplaced(previous, pending, before);
      ReplacedInOrder(written, settled, journal, |start|, previous, old(cache), saved, newCache, cache);
    }

    /** Removes the credentials the committed configuration replaced. */
    method RetireReplaced(previous: LocalConfig, pending: Pending,
                          ghost before: map<Reference, Secret>) returns (clean: bool)
      requires Valid() && References(previous) <= before.Keys
      requires Enrolled(credentials, before, previous, pending, saved)
      modifies this`credentials, this`journal
      ensures old(journal) <= journal && Stays(journal, |old(journal)|, saved, cache)
      ensures Enrolled(credentials, before, previous, pending, saved)
      ensures clean ==> Retired(previous, Variables(pending.secrets)) !! credentials.Keys
      ensures Retired(previous, Variables(pending.secrets)) !! Kept(previous, Variables(pending.secrets)) ==> Valid()
      ensures clean && !(Retired(previous, Variables(pending.secrets)) !! Kept(previous, Variables(pending.secrets)))
        ==> !Intact(Now())
    {
      ghost var stored := credentials;
      EnrolledNeeds(stored, before, previous, pending, saved);
      EnrolledIsNew(stored, before, previous, pending, saved);
      var retired := RetiredReferences(previous, saved, pending.secrets, before);
      clean := RemoveAll(retired);
      NewSecretsStay(before, stored, credentials, previous, pending, saved);
    }

    /** Leaves management, unless something is running. `next` is the unmanaged configuration, if it resolves. */
    method Unenroll(running: bool, next: Option<EffectiveConfig>) returns (ok: bool, clean: bool)
      requires Valid()
      modifies this
      ensures old(journal) <= journal && local == saved
      ensures running ==> !ok && journal == old(journal)
      ensures !ok ==> Valid() && effective == old(effective) && Now() == old(Now())
      ensures !ok ==> Stays(journal, |old(journal)|, saved, cache)
      ensures ok ==> saved == old(saved).(management := Disabled)
      ensures ok && old(saved).management.Disabled? ==> effective == old(effective) && Now() == old(Now())
      ensures ok && old(saved).management.Signed? ==>
        next == Some(effective) && (clean ==> credentials == old(credentials) - Tokens(old(saved)))
      // The cache goes after the configuration; whether or not it could be removed, no manifest is left in force.
      ensures ok ==> Replaces(journal, |old(journal)|, old(saved), old(cache), saved, None)
      ensures ok ==> OfflineManifest(Now()).None?
      // Repository credentials survive, and the disk stays intact, exactly when no token doubles as one of them.
      ensures Tokens(old(saved)) !! Refs(old(saved)).Values ==> Valid()
      ensures ok && clean && !(Tokens(old(saved)) !! Refs(old(saved)).Values) ==> !Intact(Now())
    {
      ok, clean := !running, true;
      var previous := local;
      if running || previous.management.Disabled? {
        return;
      }
      var candidate := previous.(management := Disabled);
      ok := next.Some?;
      if ok {
        ok := SaveThenCache(candidate, None);
      }
      if !ok {
        return;
      }
      effective := next.value;
      ghost var settled := journal;
      var tokens := TokenList(previous);
      clean := RemoveAll(tokens);
      ReplacedInOrder(old(journal), settled, journal, |old(journal)|, previous, old(cache), saved, None, cache);
    }
  }

  function TokenList(config: LocalConfig): (tokens: seq<Reference>)
    ensures (set r | r in tokens) == Tokens(config)
  {
    match config.management
    case Disabled => []
    case Signed(_, token, key) =>
      (if token.Some? then [token.value] else []) + (if key.Some? then [key.value] else [])
  }

  lemma EnrolledIsNew(credentials: map<Reference, Secret>, before: map<Reference, Secret>, previous: LocalConfig,
                      pending: Pending, config: LocalConfig)
    requires Enrolled(credentials, before, previous, pending, config)
    ensures forall i :: 0 <= i < |pending.secrets| ==>
              pending.secrets[i].0 in Refs(config) && Refs(config)[pending.secrets[i].0] !in before
  {
    forall i | 0 <= i < |pending.secrets|
      ensures pending.secrets[i].0 in Refs(config) && Refs(config)[pending.secrets[i].0] !in before
    {
      assert Holds(credentials, before, Refs(config), pending.secrets[i]);
    }
  }

  /** Lists what enrollment retires: the old tokens, then the old secret of each replaced variable. */
  method RetiredReferences(previous: LocalConfig, current: LocalConfig, secrets: seq<(SecretVariable, Secret)>,
                           ghost before: map<Reference, Secret>)
    returns (retired: seq<Reference>)
    requires References(previous) <= before.Keys
    requires forall i :: 0 <= i < |secrets| ==> secrets[i].0 in Refs(current) && Refs(current)[secrets[i].0] !in before
    ensures (set r | r in retired) == Retired(previous, Variables(secrets))
  {
    retired := TokenList(previous);
    var i := 0;
    assert Variables(secrets[..0]) == {};
    assert (set r | r in retired) == Retired(previous, {});
    while i < |secrets|
      invariant 0 <= i <= |secrets|
      invariant (set r | r in retired) == Retired(previous, Variables(secrets[..i]))
    {
      var v := secrets[i].0;
      VariablesSnoc(secrets, i);
      RetiredSnoc(previous, Variables(secrets[..i]), v);
      assert v in Refs(previous) ==> Refs(previous)[v] in Refs(previous).Values;
      if v in Refs(previous) && !(v in Refs(current) && Refs(current)[v] == Refs(previous)[v]) {
        retired := retired + [Refs(previous)[v]];
      }
      i := i + 1;
    }
    assert secrets[..i] == secrets;
  }

  lemma VariablesSnoc(secrets: seq<(SecretVariable, Secret)>, i: nat)
    requires i < |secrets|
    ensures Variables(secrets[..i + 1]) == Variables(secrets[..i]) + {secrets[i].0}
  {
    var next := secrets[..i + 1];
    assert next[i] == secrets[i];
    forall v | v in Variables(secrets[..i]) ensures v in Variables(next) {
      var k :| 0 <= k < i && secrets[..i][k].0 == v;
      assert next[k].0 == v;
    }
  }

  lemma RetiredSnoc(config: LocalConfig, variables: set<SecretVariable>, v: SecretVariable)
    ensures Retired(config, variables + {v}) ==
            Retired(config, variables) + if v in Refs(config) then {Refs(config)[v]} else {}
  {
  }

  /** The credentials are those of before plus exactly the created ones and the orphan, all new. */
  predicate Created(before: map<Reference, Secret>, after: map<Reference, Secret>, created: seq<Reference>,
                    orphan: Option<Reference>) {
    && Grew(before, after)
    && after.Keys == before.Keys + (set r | r in created) + Members(orphan)
    && (forall r :: r in created ==> r !in before)
    && (orphan.Some? ==> orphan.value !in before && orphan.value !in created)
  }

  /** The variable's reference is a new one, and its credential is the secret. */
  predicate Holds(credentials: map<Reference, Secret>, before: map<Reference, Secret>,
                  refs: map<SecretVariable, Reference>,
                  secret: (SecretVariable, Secret))
  {
    secret.0 in refs && Backed(credentials, before, Some(refs[secret.0]), secret.1)
  }

  predicate Backed(credentials: map<Reference, Secret>, before: map<Reference, Secret>, reference: Option<Reference>,
                   secret: Secret) {
    && reference.Some? && reference.value !in before
    && reference.value in credentials && credentials[reference.value] == secret
  }

  /** The references after storing `secrets` over `base`. */
  predicate Filed(credentials: map<Reference, Secret>, before: map<Reference, Secret>,
                  refs: map<SecretVariable, Reference>,
                  base: map<SecretVariable, Reference>, secrets: seq<(SecretVariable, Secret)>)
  {
    && refs.Keys == base.Keys + Variables(secrets)
    && (forall v :: v in base && v !in Variables(secrets) ==> refs[v] == base[v])
    && (forall i :: 0 <= i < |secrets| ==> Holds(credentials, before, refs, secrets[i]))
  }

  /** The enrolled configuration and the new credentials that back it: the token, the key and every repository secret
      are stored under references that did not exist before, and all other references stay. */
  predicate Enrolled(credentials: map<Reference, Secret>, before: map<Reference, Secret>, previous: LocalConfig,
                     pending: Pending, config: LocalConfig)
  {
    && config.rest == previous.rest && config.secretRefs.Some?
    && config.management.Signed? && config.management.source == pending.source
    && Backed(credentials, before, config.management.statusToken, pending.statusToken)
    && Backed(credentials, before, config.management.enrollmentKey, pending.privateKey)
    && Filed(credentials, before, Refs(config), Refs(previous), pending.secrets)
  }

  lemma CreatedGrew(before: map<Reference, Secret>, after: map<Reference, Secret>, created: seq<Reference>,
                    orphan: Option<Reference>)
    requires Created(before, after, created, orphan)
    ensures Grew(before, after)
  {
  }

  lemma NothingStored(credentials: map<Reference, Secret>, base: map<SecretVariable, Reference>,
                      secrets: seq<(SecretVariable, Secret)>, journal: seq<Disk>, config: LocalConfig,
                      cache: Option<PolicyCache>)
    ensures Created(credentials, credentials, [], None) && Filed(credentials, credentials, base, base, secrets[..0])
    ensures Stays(journal, |journal|, config, cache)
  {
  }

  lemma CreateOne(before: map<Reference, Secret>, current: map<Reference, Secret>, created: seq<Reference>,
                  r: Reference, secret: Secret)
    requires Created(before, current, created, None) && r !in current
    ensures Created(before, current[r := secret], created + [r], None)
  {
  }

  lemma OrphanOne(before: map<Reference, Secret>, current: map<Reference, Secret>, after: map<Reference, Secret>,
                  created: seq<Reference>, orphan: Option<Reference>, secret: Secret)
    requires Created(before, current, created, None)
    requires if orphan.Some? then orphan.value !in current && after == current[orphan.value := secret]
             else after == current
    ensures Created(before, after, created, orphan)
  {
  }

  lemma FileOne(before: map<Reference, Secret>, credentials: map<Reference, Secret>,
                refs: map<SecretVariable, Reference>,
                base: map<SecretVariable, Reference>, secrets: seq<(SecretVariable, Secret)>, i: nat, r: Reference)
    requires i < |secrets| && DistinctVariables(secrets) && r !in credentials && Grew(before, credentials)
    requires Filed(credentials, before, refs, base, secrets[..i])
    ensures Filed(credentials[r := secrets[i].1], before, refs[secrets[i].0 := r], base, secrets[..i + 1])
  {
    var next := secrets[..i + 1];
    VariablesSnoc(secrets, i);
    forall k | 0 <= k < i + 1
      ensures Holds(credentials[r := secrets[i].1], before, refs[secrets[i].0 := r], next[k])
    {
      if k < i {
        assert Holds(credentials, before, refs, secrets[..i][k]);
      }
    }
  }

  lemma CreateMore(before: map<Reference, Secret>, current: map<Reference, Secret>, after: map<Reference, Secret>,
                   created: seq<Reference>, more: seq<Reference>, orphan: Option<Reference>)
    requires Created(before, current, created, None) && Created(current, after, more, orphan)
    ensures Created(before, after, created + more, orphan)
  {
  }

  lemma RolledBack(before: map<Reference, Secret>, stored: map<Reference, Secret>, after: map<Reference, Secret>,
                   created: seq<Reference>, orphan: Option<Reference>, clean: bool)
    requires Created(before, stored, created, orphan)
    requires clean ==> after == stored - (set r | r in created)
    ensures clean ==> Grew(before, after) && after.Keys == before.Keys + Members(orphan)
  {
  }

  lemma OrphanIsNew(before: map<Reference, Secret>, stored: map<Reference, Secret>, created: seq<Reference>,
                    orphan: Option<Reference>)
    requires Created(before, stored, created, orphan)
    ensures orphan.Some? ==> orphan.value !in before
  {
  }

  /** Removing what was created leaves every credential the old configuration needs. */
  lemma RollbackSpares(before: map<Reference, Secret>, stored: map<Reference, Secret>, created: seq<Reference>,
                       orphan: Option<Reference>, config: LocalConfig)
    requires Created(before, stored, created, orphan) && References(config) <= before.Keys
    ensures References(config) <= stored.Keys - (set r | r in created)
  {
  }

  lemma BackedLater(before: map<Reference, Secret>, current: map<Reference, Secret>, after: map<Reference, Secret>,
                    reference: Option<Reference>, secret: Secret)
    requires Backed(current, before, reference, secret) && Grew(current, after)
    ensures Backed(after, before, reference, secret)
  {
  }

  lemma FiledLater(before: map<Reference, Secret>, current: map<Reference, Secret>, after: map<Reference, Secret>,
                   refs: map<SecretVariable, Reference>, base: map<SecretVariable, Reference>,
                   secrets: seq<(SecretVariable, Secret)>)
    requires Filed(after, current, refs, base, secrets) && Grew(before, current)
    ensures Filed(after, before, refs, base, secrets)
  {
    forall i | 0 <= i < |secrets|
      ensures Holds(after, before, refs, secrets[i])
    {
      assert Holds(after, current, refs, secrets[i]);
    }
  }

  /** Token, key and secrets stored in turn make the enrolled configuration. */
  lemma Assembled(before: map<Reference, Secret>, status: Reference, key: Reference, after: map<Reference, Secret>,
                  more: seq<Reference>, refs: map<SecretVariable, Reference>, previous: LocalConfig, pending: Pending)
    requires
      var second := before[status := pending.statusToken];
      var third := second[key := pending.privateKey];
      && status !in before && key !in second
      && Created(third, after, more, None) && Filed(after, third, refs, Refs(previous), pending.secrets)
    ensures Enrolled(after, before, previous, pending,
                     LocalConfig(Some(refs), Signed(pending.source, Some(status), Some(key)), previous.rest))
  {
    var third := before[status := pending.statusToken][key := pending.privateKey];
    CreatedGrew(third, after, more, None);
    FiledLater(before, third, after, refs, Refs(previous), pending.secrets);
    BackedLater(before, third, after, Some(status), pending.statusToken);
    BackedLater(before, third, after, Some(key), pending.privateKey);
  }

  /** The enrolled configuration needs the new credentials and the kept old ones, and nothing else. */
  lemma EnrolledNeeds(credentials: map<Reference, Secret>, before: map<Reference, Secret>, previous: LocalConfig,
                      pending: Pending, config: LocalConfig)
    requires Enrolled(credentials, before, previous, pending, config) && References(previous) <= before.Keys
    ensures forall r :: r in References(config) ==>
              (r in credentials && r !in before) || r in Kept(previous, Variables(pending.secrets))
    ensures Kept(previous, Variables(pending.secrets)) <= References(config)
    ensures Retired(previous, Variables(pending.secrets)) <= before.Keys
  {
    var variables, refs := Variables(pending.secrets), Refs(config);
    forall r | r in refs.Values
      ensures (r in credentials && r !in before) || r in Kept(previous, variables)
    {
      var v :| v in refs && refs[v] == r;
      if v in variables {
        var i :| 0 <= i < |pending.secrets| && pending.secrets[i].0 == v;
        assert Holds(credentials, before, refs, pending.secrets[i]);
      }
    }
    forall r | r in Kept(previous, variables)
      ensures r in refs.Values
    {
      var v :| v in Refs(previous) && v !in variables && Refs(previous)[v] == r;
      assert refs[v] == r;
    }
    forall r | r in Retired(previous, variables)
      ensures r in before
    {
      if r !in Tokens(previous) {
        var v :| v in variables && v in Refs(previous) && Refs(previous)[v] == r;
        assert r in Refs(previous).Values;
      }
    }
  }

  /** Removing only old credentials leaves the new ones in place. */
  lemma NewSecretsStay(before: map<Reference, Secret>, stored: map<Reference, Secret>, after: map<Reference, Secret>,
                       previous: LocalConfig, pending: Pending, config: LocalConfig)
    requires Enrolled(stored, before, previous, pending, config)
    requires Grew(after, stored) && forall r :: r in stored && r !in before ==> r in after
    ensures Enrolled(after, before, previous, pending, config)
  {
    forall i | 0 <= i < |pending.secrets|
      ensures Holds(after, before, Refs(config), pending.secrets[i])
    {
      assert Holds(stored, before, Refs(config), pending.secrets[i]);
    }
  }
}
