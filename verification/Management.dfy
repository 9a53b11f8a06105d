/** internal/management over internal/runtime: edits of the configuration, and what they keep true. */
module Management {
  import opened Wrappers
  import opened Strings
  import opened Lists
  import opened JsonTree
  import opened Config
  import opened Indexes
  import Validate

  /** A management request; None is a body that does not decode. */
  datatype Op =
    | PutConfig(config: Option<Config>)
    | PutPayload(payload: Option<PayloadConfig>)
    | CreateProvider(provider: Option<Provider>)
    | PutProvider(name: string, provider: Option<Provider>)
    | DeleteProvider(name: string)
    | CreateKey(key: Option<ClientApiKey>)
    | PutKey(name: string, key: Option<ClientApiKey>)
    | DeleteKey(name: string)
    | Reload

  datatype Response =
    | Committed(status: nat)
    | BadBody            // 400
    | NotFound           // 404
    | InUse              // 422 provider_in_use
    | Invalid            // 422 with the validation errors
    | FileFailed         // 500, reading or writing the file
    | BuildFailed        // 500, after the file was written

  // ---- the edits as functions of the raw config ----

  /** The first provider of this name, or -1. */
  function ProviderIndex(ps: seq<Provider>, name: string): (i: int)
    ensures -1 <= i < |ps|
    ensures i < 0 <==> forall p :: p in ps ==> p.name != name
    ensures i >= 0 ==> ps[i].name == name && forall k :: 0 <= k < i ==> ps[k].name != name
  {
    if ps == [] then -1
    else if ps[0].name == name then 0
    else
      var rest := ProviderIndex(ps[1..], name);
      assert ps == [ps[0]] + ps[1..];
      if rest < 0 then -1 else rest + 1
  }

  function KeyIndex(ks: seq<ClientApiKey>, name: string): (i: int)
    ensures -1 <= i < |ks|
    ensures i < 0 <==> forall k :: k in ks ==> k.name != name
    ensures i >= 0 ==> ks[i].name == name && forall k :: 0 <= k < i ==> ks[k].name != name
  {
    if ks == [] then -1
    else if ks[0].name == name then 0
    else
      var rest := KeyIndex(ks[1..], name);
      assert ks == [ks[0]] + ks[1..];
      if rest < 0 then -1 else rest + 1
  }

  /** Some key lists a model that belongs to this provider. */
  ghost predicate References(cfg: Config, name: string) {
    exists k, m :: k in cfg.apiKeys && m in k.models && BelongsTo(m, name)
  }

  predicate BelongsTo(m: ClientModel, name: string) {
    ParseInternalModelID(m.model).Some? && ParseInternalModelID(m.model).value.0 == name
  }

  /** The candidate config of a request, or why there is none. `disk` is what the file holds. */
  ghost function Target(raw: Config, disk: Config, op: Op): Result<Config, Response> {
    match op
    case PutConfig(body) => if body.None? then Err(BadBody) else Ok(body.value)
    case PutPayload(body) => if body.None? then Err(BadBody) else Ok(raw.(payload := body.value))
    case CreateProvider(body) =>
      if body.None? then Err(BadBody) else Ok(raw.(providers := raw.providers + [body.value]))
    case PutProvider(name, body) =>
      var i := ProviderIndex(raw.providers, name);
      if body.None? then Err(BadBody)
      else if i < 0 then Err(NotFound)
      else Ok(raw.(providers := raw.providers[i := body.value]))
    case DeleteProvider(name) =>
      var i := ProviderIndex(raw.providers, name);
      if i < 0 then Err(NotFound)
      else if References(raw, name) then Err(InUse)
      else Ok(raw.(providers := Without(raw.providers, i)))
    case CreateKey(body) => if body.None? then Err(BadBody) else Ok(raw.(apiKeys := raw.apiKeys + [body.value]))
    case PutKey(name, body) =>
      var i := KeyIndex(raw.apiKeys, name);
      if body.None? then Err(BadBody)
      else if i < 0 then Err(NotFound)
      else Ok(raw.(apiKeys := raw.apiKeys[i := body.value]))
    case DeleteKey(name) =>
      var i := KeyIndex(raw.apiKeys, name);
      if i < 0 then Err(NotFound) else Ok(raw.(apiKeys := Without(raw.apiKeys, i)))
    case Reload => Ok(disk)
  }

  function Success(op: Op): nat {
    match op
    case CreateProvider(_) => 201
    case CreateKey(_) => 201
    case DeleteProvider(_) => 204
    case DeleteKey(_) => 204
    case _ => 200
  }

  /** The response, decided before anything is changed: a reload reads the file before it validates, an edit writes
      it after. `fileOk` says whether that file operation succeeds. */
  ghost function Answer(
      env: string -> string, decode: string -> Option<Json>, raw: Config, disk: Config, op: Op, fileOk: bool): Response
  {
    Decided(env, decode, Target(raw, disk, op), op.Reload?, Success(op), fileOk)
  }

  ghost function Decided(
      env: string -> string, decode: string -> Option<Json>, target: Result<Config, Response>, first: bool, status: nat,
      fileOk: bool): Response
  {
    match target
    case Err(response) => response
    case Ok(config) =>
      if first && !fileOk then FileFailed else Applied(env, decode, config, fileOk, status)
  }

  /** Validate, then write: the response to a candidate config. */
  ghost function Applied(
      env: string -> string, decode: string -> Option<Json>, candidate: Config, fileOk: bool, status: nat): Response
  {
    if !Validate.Valid(decode, Expand(env, candidate)) then Invalid
    else if !fileOk then FileFailed
    else Committed(status)
  }

  /** A reload is decided by the file, an edit by the edited copy. */
  lemma AnswerIs(
      env: string -> string, decode: string -> Option<Json>, raw: Config, disk: Config, op: Op, fileOk: bool)
    ensures Answer(env, decode, raw, disk, op, fileOk) ==
            if op.Reload? then (if fileOk then Applied(env, decode, disk, true, 200) else FileFailed)
            else Decided(env, decode, Target(raw, disk, op), false, Success(op), fileOk)
    ensures op.Reload? ==> Target(raw, disk, op) == Ok(disk)
  {
  }

  /** The raw config afterwards: the target when committed, else the old one. */
  ghost function After(
      env: string -> string, decode: string -> Option<Json>, raw: Config, disk: Config, op: Op, fileOk: bool): Config
  {
    Moved(Target(raw, disk, op), Answer(env, decode, raw, disk, op, fileOk), raw)
  }

  function Moved(target: Result<Config, Response>, response: Response, raw: Config): Config {
    if target.Ok? && response.Committed? then target.value else raw
  }

  // ---- the handlers ----

  class Runtime {
    const env: string -> string
    const decode: string -> Option<Json>
    var disk: Config
    var raw: Config
    var cfg: Config
    var indexes: Indexes

    /** The runtime state is valid and of one piece. */
    ghost predicate Coherent()
      reads this
    {
      && cfg == Expand(env, raw)
      && Validate.Valid(decode, cfg)
      && IndexOf(indexes, cfg)
    }

    /** Startup, from a file that holds a valid config. */
    constructor (env: string -> string, decode: string -> Option<Json>, file: Config)
      requires Validate.Valid(decode, Expand(env, file))
      ensures this.env == env && this.decode == decode
      ensures Coherent() && disk == raw == file
    {
      ValidIsBuildable(decode, Expand(env, file));
      var built := Build(Expand(env, file));
      this.env, this.decode := env, decode;
      disk, raw, cfg, indexes := file, file, Expand(env, file), built.value;
    }

    method Replace(raw: Config, cfg: Config, indexes: Indexes)
      requires cfg == Expand(env, raw) && Validate.Valid(decode, cfg) && IndexOf(indexes, cfg)
      modifies this`raw, this`cfg, this`indexes
      ensures this.raw == raw && this.cfg == cfg && this.indexes == indexes
      ensures Coherent()
    {
      this.raw, this.cfg, this.indexes := raw, cfg, indexes;
    }

    /** Validate, write, build, swap. The write comes before the build, yet a build error cannot follow it. */
    method ApplyAndCommit(candidate: Config, fileOk: bool, status: nat) returns (response: Response)
      requires Coherent()
      modifies this`disk, this`raw, this`cfg, this`indexes
      ensures Coherent()
      ensures response == Applied(env, decode, candidate, fileOk, status)
      ensures response.Committed? ==> disk == raw == candidate
      ensures !response.Committed? ==> disk == old(disk) && raw == old(raw) && cfg == old(cfg) && indexes == old(indexes)
    {
      var expanded := Expand(env, candidate);
      var errs := Validate.Validate(decode, expanded);
      if errs != [] {
        return Invalid;
      }
      if !fileOk {
        return FileFailed;
      }
      disk := candidate;
      ValidIsBuildable(decode, expanded);
      var built := Build(expanded);
      if built.Err? {
        assert false;
      }
      Replace(candidate, expanded, built.value);
      return Committed(status);
    }

    /** Reload: the file is read, not written. */
    method ReloadConfig(fileOk: bool) returns (response: Response)
      requires Coherent()
      modifies this`raw, this`cfg, this`indexes
      ensures Coherent()
      ensures response == if fileOk then Applied(env, decode, disk, true, 200) else FileFailed
      ensures response.Committed? ==> raw == disk
      ensures fileOk && old(disk) == old(raw) ==> response == Committed(200) && raw == old(raw) && cfg == old(cfg)
      ensures !response.Committed? ==> disk == old(disk) && raw == old(raw) && cfg == old(cfg) && indexes == old(indexes)
    {
      if !fileOk {
        return FileFailed;
      }
      var expanded := Expand(env, disk);
      var errs := Validate.Validate(decode, expanded);
      if errs != [] {
        return Invalid;
      }
      ValidIsBuildable(decode, expanded);
      var built := Build(expanded);
      if built.Err? {
        assert false;
      }
      Replace(disk, expanded, built.value);
      return Committed(200);
    }

    /** The check before a deletion, key by key and model by model. */
    method InUseCheck(name: string) returns (used: bool)
      ensures used <==> References(raw, name)
    {
      var i := 0;
      while i < |raw.apiKeys|
        invariant 0 <= i <= |raw.apiKeys|
        invariant forall k, m :: k in raw.apiKeys[..i] && m in k.models ==> !BelongsTo(m, name)
      {
        var k := raw.apiKeys[i];
        assert raw.apiKeys[..i + 1] == raw.apiKeys[..i] + [k];
        var j := 0;
        while j < |k.models|
          invariant 0 <= j <= |k.models|
          invariant forall m :: m in k.models[..j] ==> !BelongsTo(m, name)
        {
          if BelongsTo(k.models[j], name) {
            assert k in raw.apiKeys && k.models[j] in k.models;
            return true;
          }
          assert k.models[..j + 1] == k.models[..j] + [k.models[j]];
          j := j + 1;
        }
        assert k.models[..j] == k.models;
        i := i + 1;
      }
      assert raw.apiKeys[..i] == raw.apiKeys;
      return false;
    }

    /** The lookups and checks before an edit, and the edited copy. */
    method Edited(op: Op) returns (r: Result<Config, Response>)
      requires !op.Reload?
      ensures r == Target(raw, disk, op)
    {
      match op
      case PutConfig(body) =>
        return if body.None? then Err(BadBody) else Ok(body.value);
      case PutPayload(body) =>
        return if body.None? then Err(BadBody) else Ok(raw.(payload := body.value));
      case CreateProvider(body) =>
        return if body.None? then Err(BadBody) else Ok(raw.(providers := raw.providers + [body.value]));
      case PutProvider(name, body) =>
        if body.None? { return Err(BadBody); }
        var i := ProviderIndex(raw.providers, name);
        return if i < 0 then Err(NotFound) else Ok(raw.(providers := raw.providers[i := body.value]));
      case DeleteProvider(name) =>
        var i := ProviderIndex(raw.providers, name);
        if i < 0 { return Err(NotFound); }
        var used := InUseCheck(name);
        return if used then Err(InUse) else Ok(raw.(providers := Without(raw.providers, i)));
      case CreateKey(body) =>
        return if body.None? then Err(BadBody) else Ok(raw.(apiKeys := raw.apiKeys + [body.value]));
      case PutKey(name, body) =>
        if body.None? { return Err(BadBody); }
        var i := KeyIndex(raw.apiKeys, name);
        return if i < 0 then Err(NotFound) else Ok(raw.(apiKeys := raw.apiKeys[i := body.value]));
      case DeleteKey(name) =>
        var i := KeyIndex(raw.apiKeys, name);
        return if i < 0 then Err(NotFound) else Ok(raw.(apiKeys := Without(raw.apiKeys, i)));
    }

    /** One management request: the state moves to its target together with the file, or not at all. */
    method Handle(op: Op, fileOk: bool) returns (response: Response)
      requires Coherent()
      modifies this`disk, this`raw, this`cfg, this`indexes
      ensures Coherent()
      ensures response == Answer(env, decode, old(raw), old(disk), op, fileOk)
      ensures raw == Moved(Target(old(raw), old(disk), op), response, old(raw))
      ensures !response.BuildFailed?
      ensures response.Committed? ==> disk == raw
      ensures !response.Committed? ==> disk == old(disk) && cfg == old(cfg) && indexes == old(indexes)
    {
      AnswerIs(env, decode, raw, disk, op, fileOk);
      if op.Reload? {
        response := ReloadConfig(fileOk);
      } else {
        response := Mutate(op, fileOk);
      }
    }

    method Meet(event: Event) returns (responses: seq<Response>)
      requires Coherent()
      modifies this`disk, this`raw, this`cfg, this`indexes
      ensures Coherent()
      ensures Stored(raw, disk) == Move(env, decode, Stored(old(raw), old(disk)), event)
      ensures forall response :: response in responses ==> !response.BuildFailed?
    {
      match event {
        case FileEdited(file) =>
          disk := file;
          return [];
        case Request(op, fileOk) =>
          var response := Handle(op, fileOk);
          return [response];
      }
    }

    /** Any run of requests, with edits of the file between them: the runtime state stays valid and of one piece, moves
        as the events say, and no request ever ends in a build error; without edits it also stays what the disk holds. */
    method RunAll(events: seq<Event>) returns (responses: seq<Response>)
      requires Coherent()
      modifies this`disk, this`raw, this`cfg, this`indexes
      ensures Coherent()
      ensures Stored(raw, disk) == Moves(env, decode, Stored(old(raw), old(disk)), events)
      ensures old(disk) == old(raw) && (forall e :: e in events ==> e.Request?) ==> disk == raw
      ensures forall response :: response in responses ==> !response.BuildFailed?
    {
      responses := [];
      var i := 0;
      while i < |events|
        invariant 0 <= i <= |events|
        invariant Coherent()
        invariant Moves(env, decode, Stored(raw, disk), events[i..]) ==
                  Moves(env, decode, Stored(old(raw), old(disk)), events)
        invariant forall response :: response in responses ==> !response.BuildFailed?
      {
        assert events[i..][0] == events[i] && events[i..][1..] == events[i + 1..];
        var answers := Meet(events[i]);
        responses := responses + answers;
        i := i + 1;
      }
      if old(disk) == old(raw) && forall e :: e in events ==> e.Request? {
        DiskFollows(env, decode, Stored(old(raw), old(disk)), events);
      }
    }

    method Mutate(op: Op, fileOk: bool) returns (response: Response)
      requires Coherent() && !op.Reload?
      modifies this`disk, this`raw, this`cfg, this`indexes
      ensures Coherent()
      ensures
        var target := Target(old(raw), old(disk), op);
        && response == Decided(env, decode, target, false, Success(op), fileOk)
        && raw == Moved(target, response, old(raw))
      ensures !response.BuildFailed?
      ensures response.Committed? ==> disk == raw
      ensures !response.Committed? ==> disk == old(disk) && cfg == old(cfg) && indexes == old(indexes)
    {
      var edited := Edited(op);
      response := CommitEdit(edited, Success(op), fileOk);
    }

    method CommitEdit(edited: Result<Config, Response>, status: nat, fileOk: bool) returns (response: Response)
      requires Coherent() && (edited.Err? ==> edited.error.BadBody? || edited.error.NotFound? || edited.error.InUse?)
      modifies this`disk, this`raw, this`cfg, this`indexes
      ensures Coherent()
      ensures response == Decided(env, decode, edited, false, status, fileOk)
      ensures raw == Moved(edited, response, old(raw))
      ensures !response.BuildFailed?
      ensures response.Committed? ==> disk == raw
      ensures !response.Committed? ==> disk == old(disk) && cfg == old(cfg) && indexes == old(indexes)
    {
      if edited.Err? {
        return edited.error;
      }
      response := ApplyAndCommit(edited.value, fileOk, status);
    }
  }

  // ---- whole runs ----

  /** What happens to the configuration: a management request, or an edit of the file behind its back. */
  datatype Event = Request(op: Op, fileOk: bool) | FileEdited(file: Config)

  datatype Stored = Stored(raw: Config, disk: Config)

  ghost function Move(env: string -> string, decode: string -> Option<Json>, s: Stored, event: Event): Stored {
    match event
    case FileEdited(file) => s.(disk := file)
    case Request(op, fileOk) =>
      if Answer(env, decode, s.raw, s.disk, op, fileOk).Committed? then
        var raw := After(env, decode, s.raw, s.disk, op, fileOk);
        Stored(raw, raw)
      else s
  }

  /** The configuration after a run of events, none of the requests racing another. */
  ghost function Moves(env: string -> string, decode: string -> Option<Json>, s: Stored, events: seq<Event>): Stored
    decreases |events|
  {
    if events == [] then s else Moves(env, decode, Move(env, decode, s, events[0]), events[1..])
  }

  /** Without edits of the file, disk and raw config never part. */
  lemma {:induction false} DiskFollows(
      env: string -> string, decode: string -> Option<Json>, s: Stored, events: seq<Event>)
    requires s.raw == s.disk && forall e :: e in events ==> e.Request?
    ensures Moves(env, decode, s, events).raw == Moves(env, decode, s, events).disk
    decreases |events|
  {
    if events != [] {
      assert events[0] in events;
      DiskFollows(env, decode, Move(env, decode, s, events[0]), events[1..]);
    }
  }

  // ---- deletions ----

  function DropProvider(cfg: Config, n: nat): Config
    requires n < |cfg.providers|
  {
    cfg.(providers := Without(cfg.providers, n))
  }

  lemma Shifted<T>(s: seq<T>, n: nat)
    requires n < |s|
    ensures |Without(s, n)| == |s| - 1
    ensures forall i :: 0 <= i < |s| - 1 ==> Without(s, n)[i] == s[Up(n, i)]
  {
  }

  lemma ProviderProblemsShift(cfg: Config, n: nat, e: Validate.ValidationError)
    requires n < |cfg.providers| && Validate.ProviderProblem(DropProvider(cfg, n), e)
    ensures exists e' :: Validate.ProviderProblem(cfg, e')
  {
    Shifted(cfg.providers, n);
    var i := Validate.ProviderIndex(e);
    var i' := Up(n, i);
    match e
    case ProviderNameRequired(_) => assert Validate.ProviderProblem(cfg, Validate.ProviderNameRequired(i'));
    case ProviderNameSlash(_) => assert Validate.ProviderProblem(cfg, Validate.ProviderNameSlash(i'));
    case DuplicateProvider(_) =>
      var ps := DropProvider(cfg, n).providers;
      var k :| 0 <= k < i && ps[k].name == ps[i].name;
      assert cfg.providers[Up(n, k)].name == cfg.providers[i'].name;
      assert Validate.ProviderProblem(cfg, Validate.DuplicateProvider(i'));
    case ProviderURLRequired(_) => assert Validate.ProviderProblem(cfg, Validate.ProviderURLRequired(i'));
    case InvalidURLProtocol(_, p) => assert Validate.ProviderProblem(cfg, Validate.InvalidURLProtocol(i', p));
    case InvalidProviderType(_) => assert Validate.ProviderProblem(cfg, Validate.InvalidProviderType(i'));
    case InvalidMaxConcurrency(_) => assert Validate.ProviderProblem(cfg, Validate.InvalidMaxConcurrency(i'));
  }

  lemma ModelProblemsShift(cfg: Config, n: nat, e: Validate.ValidationError)
    requires n < |cfg.providers| && Validate.ModelProblem(DropProvider(cfg, n), e)
    ensures exists e' :: Validate.ModelProblem(cfg, e')
  {
    Shifted(cfg.providers, n);
    match e
    case ProviderModelRequired(i, j) =>
      assert Validate.ModelProblem(cfg, Validate.ProviderModelRequired(Up(n, i), j));
    case DuplicateAliasA(i, j) =>
      var ms := DropProvider(cfg, n).providers[i].models;
      assert cfg.providers[Up(n, i)].models == ms;
      var k :| 0 <= k < j && EffectiveAliasA(ms[k]) == EffectiveAliasA(ms[j]);
      assert EffectiveAliasA(Validate.ModelAt(cfg, Up(n, i), k)) == EffectiveAliasA(Validate.ModelAt(cfg, Up(n, i), j));
      assert Validate.ModelProblem(cfg, Validate.DuplicateAliasA(Up(n, i), j));
    case DuplicateInternalModel(i, j) =>
      var dropped := DropProvider(cfg, n);
      var i', j' :| Validate.HasID(dropped, i', j') && (i' < i || (i' == i && j' < j)) &&
        Validate.IDAt(dropped, i', j') == Validate.IDAt(dropped, i, j);
      assert Validate.HasID(cfg, Up(n, i'), j') && Validate.HasID(cfg, Up(n, i), j);
      assert Validate.IDAt(cfg, Up(n, i'), j') == Validate.IDAt(cfg, Up(n, i), j);
      assert Up(n, i') < Up(n, i) || (Up(n, i') == Up(n, i) && j' < j);
      assert Validate.IDBefore(cfg, Up(n, i), j, Validate.IDAt(cfg, Up(n, i), j));
      assert Validate.ModelProblem(cfg, Validate.DuplicateInternalModel(Up(n, i), j));
  }

  /** An id that does not belong to the dropped provider is known afterwards exactly when it was before. */
  lemma OthersStayKnown(decode: string -> Option<Json>, cfg: Config, n: nat, m: ClientModel)
    requires Validate.Valid(decode, cfg) && n < |cfg.providers| && Validate.KnownID(cfg, m.model)
    ensures Validate.KnownID(DropProvider(cfg, n), m.model) <==> !BelongsTo(m, cfg.providers[n].name)
  {
    var i, j :| Validate.HasID(cfg, i, j) && Validate.IDAt(cfg, i, j) == m.model;
    Validate.ValidIDs(decode, cfg, i, j);
    if i != n {
      KeptIDStaysKnown(cfg, n, i, j);
      Validate.NamesDiffer(decode, cfg, i, n);
    } else {
      DroppedIDIsUnknown(decode, cfg, n, j);
    }
  }

  lemma KeptIDStaysKnown(cfg: Config, n: nat, i: int, j: int)
    requires n < |cfg.providers| && Validate.HasID(cfg, i, j) && i != n
    ensures Validate.KnownID(DropProvider(cfg, n), Validate.IDAt(cfg, i, j))
  {
    Shifted(cfg.providers, n);
    var dropped, i' := DropProvider(cfg, n), if i < n then i else i - 1;
    assert Validate.HasID(dropped, i', j) && Validate.IDAt(dropped, i', j) == Validate.IDAt(cfg, i, j);
  }

  lemma DroppedIDIsUnknown(decode: string -> Option<Json>, cfg: Config, n: nat, j: int)
    requires Validate.Valid(decode, cfg) && Validate.IsModel(cfg, n, j)
    ensures !Validate.KnownID(DropProvider(cfg, n), Validate.IDAt(cfg, n, j))
  {
    Shifted(cfg.providers, n);
    Validate.ValidIDs(decode, cfg, n, j);
    var dropped := DropProvider(cfg, n);
    forall i', j' | Validate.HasID(dropped, i', j') ensures Validate.IDAt(dropped, i', j') != Validate.IDAt(cfg, n, j) {
      assert Validate.IDAt(cfg, Up(n, i'), j') == Validate.IDAt(dropped, i', j');
    }
  }

  /** The in-use check is exact: dropping a provider of a valid config leaves a valid config if and only if no key
      references it. */
  lemma DeletionIsSafe(decode: string -> Option<Json>, cfg: Config, n: nat)
    requires Validate.Valid(decode, cfg) && n < |cfg.providers|
    ensures Validate.Valid(decode, DropProvider(cfg, n)) <==> !References(cfg, cfg.providers[n].name)
  {
    if References(cfg, cfg.providers[n].name) {
      DroppingUsedBreaks(decode, cfg, n);
    } else {
      forall e ensures !Validate.Problem(decode, DropProvider(cfg, n), e) {
        if Validate.Problem(decode, DropProvider(cfg, n), e) {
          DroppedProblem(decode, cfg, n, e);
        }
      }
    }
  }

  lemma DroppingUsedBreaks(decode: string -> Option<Json>, cfg: Config, n: nat)
    requires Validate.Valid(decode, cfg) && n < |cfg.providers| && References(cfg, cfg.providers[n].name)
    ensures !Validate.Valid(decode, DropProvider(cfg, n))
  {
    var k, m :| k in cfg.apiKeys && m in k.models && BelongsTo(m, cfg.providers[n].name);
    var a :| 0 <= a < |cfg.apiKeys| && cfg.apiKeys[a] == k;
    var b :| 0 <= b < |k.models| && k.models[b] == m;
    ListedModelsAreKnown(decode, cfg, a, b);
    OthersStayKnown(decode, cfg, n, m);
    assert Validate.KeyProblem(DropProvider(cfg, n), Validate.ModelNotFound(a, b));
    assert Validate.Problem(decode, DropProvider(cfg, n), Validate.ModelNotFound(a, b));
  }

  lemma ListedModelsAreKnown(decode: string -> Option<Json>, cfg: Config, k: int, j: int)
    requires Validate.Valid(decode, cfg) && 0 <= k < |cfg.apiKeys| && 0 <= j < |cfg.apiKeys[k].models|
    ensures cfg.apiKeys[k].models[j].model != "" && Validate.KnownID(cfg, cfg.apiKeys[k].models[j].model)
  {
    assert !Validate.Problem(decode, cfg, Validate.ClientModelRequired(k, j));
    assert !Validate.Problem(decode, cfg, Validate.ModelNotFound(k, j));
  }

  lemma DroppedProblem(decode: string -> Option<Json>, cfg: Config, n: nat, e: Validate.ValidationError)
    requires n < |cfg.providers| && !References(cfg, cfg.providers[n].name)
    requires Validate.Problem(decode, DropProvider(cfg, n), e)
    ensures !Validate.Valid(decode, cfg)
  {
    var dropped := DropProvider(cfg, n);
    if Validate.ProviderProblem(dropped, e) {
      ProviderProblemsShift(cfg, n, e);
      var e' :| Validate.ProviderProblem(cfg, e');
      assert Validate.Problem(decode, cfg, e');
    } else if Validate.ModelProblem(dropped, e) {
      ModelProblemsShift(cfg, n, e);
      var e' :| Validate.ModelProblem(cfg, e');
      assert Validate.Problem(decode, cfg, e');
    } else {
      DroppedOtherProblem(decode, cfg, n, e);
    }
  }

  lemma DroppedOtherProblem(decode: string -> Option<Json>, cfg: Config, n: nat, e: Validate.ValidationError)
    requires n < |cfg.providers| && !References(cfg, cfg.providers[n].name)
    requires Validate.Problem(decode, DropProvider(cfg, n), e)
    requires !Validate.ProviderProblem(DropProvider(cfg, n), e) && !Validate.ModelProblem(DropProvider(cfg, n), e)
    ensures !Validate.Valid(decode, cfg)
  {
    if !Validate.Problem(decode, cfg, e) && Validate.Valid(decode, cfg) {
      ListedStaysKnown(decode, cfg, n, e);
    }
  }

  lemma ListedStaysKnown(decode: string -> Option<Json>, cfg: Config, n: nat, e: Validate.ValidationError)
    requires n < |cfg.providers| && !References(cfg, cfg.providers[n].name) && Validate.Valid(decode, cfg)
    requires e.ModelNotFound? && 0 <= e.k < |cfg.apiKeys| && 0 <= e.j < |cfg.apiKeys[e.k].models|
    requires cfg.apiKeys[e.k].models[e.j].model != ""
    ensures Validate.KnownID(DropProvider(cfg, n), cfg.apiKeys[e.k].models[e.j].model)
  {
    var m := cfg.apiKeys[e.k].models[e.j];
    assert cfg.apiKeys[e.k] in cfg.apiKeys && m in cfg.apiKeys[e.k].models;
    ListedModelsAreKnown(decode, cfg, e.k, e.j);
    OthersStayKnown(decode, cfg, n, m);
  }

  lemma ReferencesExpand(env: string -> string, raw: Config, name: string)
    ensures References(Expand(env, raw), name) <==> References(raw, name)
  {
    var cfg := Expand(env, raw);
    if References(raw, name) {
      var k, m :| k in raw.apiKeys && m in k.models && BelongsTo(m, name);
      var i :| 0 <= i < |raw.apiKeys| && raw.apiKeys[i] == k;
      assert cfg.apiKeys[i] in cfg.apiKeys && m in cfg.apiKeys[i].models;
    }
    if References(cfg, name) {
      var k, m :| k in cfg.apiKeys && m in k.models && BelongsTo(m, name);
      var i :| 0 <= i < |cfg.apiKeys| && cfg.apiKeys[i] == k;
      assert raw.apiKeys[i] in raw.apiKeys && m in raw.apiKeys[i].models;
    }
  }

  lemma ExpandWithout(env: string -> string, raw: Config, n: nat)
    requires n < |raw.providers|
    ensures Expand(env, raw.(providers := Without(raw.providers, n))) == DropProvider(Expand(env, raw), n)
  {
    var a, b := Expand(env, raw.(providers := Without(raw.providers, n))), DropProvider(Expand(env, raw), n);
    Shifted(raw.providers, n);
    Shifted(Expand(env, raw).providers, n);
    assert a.providers == b.providers;
    assert a.apiKeys == b.apiKeys;
  }

  /** So a deletion that gets past the lookup and the in-use check is never refused as invalid: only the file can
      still fail. */
  lemma CheckedDeletionCommits(
      env: string -> string, decode: string -> Option<Json>, raw: Config, disk: Config, name: string, fileOk: bool)
    requires Validate.Valid(decode, Expand(env, raw))
    requires ProviderIndex(raw.providers, name) >= 0 && !References(raw, name)
    ensures Answer(env, decode, raw, disk, DeleteProvider(name), fileOk) == if fileOk then Committed(204) else FileFailed
  {
    var n := ProviderIndex(raw.providers, name);
    AnswerIs(env, decode, raw, disk, DeleteProvider(name), fileOk);
    ExpandWithout(env, raw, n);
    ReferencesExpand(env, raw, name);
    DeletionIsSafe(decode, Expand(env, raw), n);
  }

  /** A committed creation followed by the deletion of that provider gives back the config. */
  lemma CreateThenDelete(env: string -> string, decode: string -> Option<Json>, raw: Config, p: Provider)
    requires Validate.Valid(decode, Expand(env, raw))
    requires Answer(env, decode, raw, raw, CreateProvider(Some(p)), true).Committed?
    ensures
      var created := After(env, decode, raw, raw, CreateProvider(Some(p)), true);
      After(env, decode, created, created, DeleteProvider(p.name), true) == raw
  {
    var created := raw.(providers := raw.providers + [p]);
    assert After(env, decode, raw, raw, CreateProvider(Some(p)), true) == created;
    NewIsUnused(env, decode, raw, p);
    DeletesLast(env, decode, raw, p);
    CheckedDeletionCommits(env, decode, created, created, p.name, true);
  }

  lemma DeletesLast(env: string -> string, decode: string -> Option<Json>, raw: Config, p: Provider)
    requires
      var created := raw.(providers := raw.providers + [p]);
      Validate.Valid(decode, Expand(env, created)) && !References(created, p.name)
    ensures
      var created := raw.(providers := raw.providers + [p]);
      && ProviderIndex(created.providers, p.name) >= 0
      && Target(created, created, DeleteProvider(p.name)) == Ok(raw)
  {
    NewNameIsLast(env, decode, raw, p);
    LastIsDropped(raw, p);
  }

  lemma LastIsDropped(raw: Config, p: Provider)
    requires ProviderIndex(raw.providers + [p], p.name) == |raw.providers|
    requires !References(raw.(providers := raw.providers + [p]), p.name)
    ensures
      var created := raw.(providers := raw.providers + [p]);
      Target(created, created, DeleteProvider(p.name)) == Ok(raw)
  {
    assert Without(raw.providers + [p], |raw.providers|) == raw.providers;
  }

  lemma NewNameIsLast(env: string -> string, decode: string -> Option<Json>, raw: Config, p: Provider)
    requires Validate.Valid(decode, Expand(env, raw.(providers := raw.providers + [p])))
    ensures ProviderIndex(raw.providers + [p], p.name) == |raw.providers|
  {
    var created := raw.(providers := raw.providers + [p]);
    var cfg, n := Expand(env, created), |raw.providers|;
    assert created.providers[n] == p && p in created.providers;
    forall i | 0 <= i < n ensures created.providers[i].name != p.name {
      Validate.NamesDiffer(decode, cfg, i, n);
      assert cfg.providers[i].name == created.providers[i].name;
    }
  }

  /** No key of the config before could list a model of the new provider. */
  lemma NewIsUnused(env: string -> string, decode: string -> Option<Json>, raw: Config, p: Provider)
    requires Validate.Valid(decode, Expand(env, raw))
    requires Validate.Valid(decode, Expand(env, raw.(providers := raw.providers + [p])))
    ensures !References(raw.(providers := raw.providers + [p]), p.name)
  {
    var created, n := raw.(providers := raw.providers + [p]), |raw.providers|;
    ReferencesExpand(env, created, p.name);
    ExpandWithout(env, created, n);
    assert Without(created.providers, n) == raw.providers;
    assert created.(providers := raw.providers) == raw;
    DeletionIsSafe(decode, Expand(env, created), n);
  }
}
