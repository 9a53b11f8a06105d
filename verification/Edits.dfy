/** internal/management, the edits one by one: what each leaves in place, told from the configuration before it. */
module Edits {
  import opened Wrappers
  import opened Lists
  import opened JsonTree
  import opened Config
  import opened Management
  import Validate
  import Accepted

  /** The request names nothing the configuration holds. */
  predicate Missing(raw: Config, op: Op) {
    match op
    case PutProvider(name, _) => forall p :: p in raw.providers ==> p.name != name
    case DeleteProvider(name) => forall p :: p in raw.providers ==> p.name != name
    case PutKey(name, _) => forall k :: k in raw.apiKeys ==> k.name != name
    case DeleteKey(name) => forall k :: k in raw.apiKeys ==> k.name != name
    case _ => false
  }

  predicate Unreadable(op: Op) {
    match op
    case PutConfig(body) => body.None?
    case PutPayload(body) => body.None?
    case CreateProvider(body) => body.None?
    case PutProvider(_, body) => body.None?
    case CreateKey(body) => body.None?
    case PutKey(_, body) => body.None?
    case _ => false
  }

  /** Everything but the providers, or the keys, is as it was. */
  predicate OnlyProviders(raw: Config, after: Config) {
    after.(providers := raw.providers) == raw
  }

  predicate OnlyKeys(raw: Config, after: Config) {
    after.(apiKeys := raw.apiKeys) == raw
  }

  /** A committed edit: one entry more, one entry exchanged, or the entry of this name gone, and every other entry in
      its place. */
  ghost predicate Done(raw: Config, disk: Config, op: Op, after: Config) {
    match op
    case PutConfig(body) => body == Some(after)
    case PutPayload(body) => body == Some(after.payload) && after.(payload := raw.payload) == raw
    case CreateProvider(body) =>
      body.Some? && OnlyProviders(raw, after) && after.providers == raw.providers + [body.value]
    case PutProvider(name, body) =>
      && body.Some? && OnlyProviders(raw, after) && |after.providers| == |raw.providers|
      && forall i :: 0 <= i < |raw.providers| ==>
           after.providers[i] == if raw.providers[i].name == name then body.value else raw.providers[i]
    case DeleteProvider(name) =>
      OnlyProviders(raw, after) && after.providers == Filter((p: Provider) => p.name != name, raw.providers)
    case CreateKey(body) => body.Some? && OnlyKeys(raw, after) && after.apiKeys == raw.apiKeys + [body.value]
    case PutKey(name, body) =>
      && body.Some? && OnlyKeys(raw, after) && |after.apiKeys| == |raw.apiKeys|
      && forall i :: 0 <= i < |raw.apiKeys| ==>
           after.apiKeys[i] == if raw.apiKeys[i].name == name then body.value else raw.apiKeys[i]
    case DeleteKey(name) =>
      OnlyKeys(raw, after) && after.apiKeys == Filter((k: ClientApiKey) => k.name != name, raw.apiKeys)
    case Reload => after == disk
  }

  lemma {:induction false} WithoutIsFilter<T(!new)>(p: T -> bool, xs: seq<T>, n: nat)
    requires n < |xs| && !p(xs[n]) && forall i :: 0 <= i < |xs| && i != n ==> p(xs[i])
    ensures Without(xs, n) == Filter(p, xs)
  {
    if n == 0 {
      assert Without(xs, 0) == xs[1..];
      FilterAll(p, xs[1..]);
    } else {
      WithoutIsFilter(p, xs[1..], n - 1);
      assert Without(xs, n) == [xs[0]] + Without(xs[1..], n - 1);
    }
  }

  /** In a configuration in force, names are unique. */
  lemma NamesAreUnique(env: string -> string, decode: string -> Option<Json>, raw: Config)
    requires Validate.Valid(decode, Expand(env, raw))
    ensures forall i, n :: 0 <= i < n < |raw.providers| ==> raw.providers[i].name != raw.providers[n].name
    ensures forall i, n :: 0 <= i < n < |raw.apiKeys| ==> raw.apiKeys[i].name != raw.apiKeys[n].name
  {
    var cfg := Expand(env, raw);
    Accepted.ValidDistinct(decode, cfg);
    forall i, n | 0 <= i < n < |raw.providers| ensures raw.providers[i].name != raw.providers[n].name {
      assert cfg.providers[i].name == raw.providers[i].name && cfg.providers[n].name == raw.providers[n].name;
    }
    forall i, n | 0 <= i < n < |raw.apiKeys| ensures raw.apiKeys[i].name != raw.apiKeys[n].name {
      assert cfg.apiKeys[i].name == raw.apiKeys[i].name && cfg.apiKeys[n].name == raw.apiKeys[n].name;
    }
  }

  /** What an edit aims at, when there is something to aim at. */
  lemma TargetIsDone(raw: Config, disk: Config, op: Op)
    requires forall i, n :: 0 <= i < n < |raw.providers| ==> raw.providers[i].name != raw.providers[n].name
    requires forall i, n :: 0 <= i < n < |raw.apiKeys| ==> raw.apiKeys[i].name != raw.apiKeys[n].name
    requires Target(raw, disk, op).Ok?
    ensures Done(raw, disk, op, Target(raw, disk, op).value)
  {
    match op
    case DeleteProvider(name) =>
      WithoutIsFilter((p: Provider) => p.name != name, raw.providers, ProviderIndex(raw.providers, name));
    case DeleteKey(name) =>
      WithoutIsFilter((k: ClientApiKey) => k.name != name, raw.apiKeys, KeyIndex(raw.apiKeys, name));
    case _ =>
  }

  lemma TargetRefuses(raw: Config, disk: Config, op: Op)
    ensures
      var target := Target(raw, disk, op);
      && (target.Err? ==> target.error.BadBody? || target.error.NotFound? || target.error.InUse?)
      && (target == Err(BadBody) <==> Unreadable(op))
      && (target == Err(NotFound) <==> !Unreadable(op) && Missing(raw, op))
      && (target == Err(InUse) <==> op.DeleteProvider? && !Missing(raw, op) && References(raw, op.name))
  {
  }

  /** What a committed edit answers. */
  predicate StatusOf(op: Op, status: nat) {
    if op.CreateProvider? || op.CreateKey? then status == 201
    else if op.DeleteProvider? || op.DeleteKey? then status == 204
    else status == 200
  }

  /** The answer to an edit that aims at `next`: a reload needs its file first, everything else last. */
  ghost predicate Follows(
      env: string -> string, decode: string -> Option<Json>, op: Op, next: Config, fileOk: bool, answer: Response)
  {
    if op.Reload? && !fileOk then answer == FileFailed
    else if !Validate.Valid(decode, Expand(env, next)) then answer == Invalid
    else if !fileOk then answer == FileFailed
    else answer.Committed? && StatusOf(op, answer.status)
  }

  /** Every management request on a configuration in force: refused for exactly its reason, with nothing changed; or
      aimed at the configuration with just its own entry added, exchanged or gone, and committed to exactly when that
      is valid and the file can be had. */
  lemma EditsWhatItNames(
      env: string -> string, decode: string -> Option<Json>, raw: Config, disk: Config, op: Op, fileOk: bool)
    requires Validate.Valid(decode, Expand(env, raw))
    ensures
      var answer, after := Answer(env, decode, raw, disk, op, fileOk), After(env, decode, raw, disk, op, fileOk);
      && (answer.BadBody? <==> Unreadable(op))
      && (answer.NotFound? <==> !Unreadable(op) && Missing(raw, op))
      && (answer.InUse? <==> op.DeleteProvider? && !Missing(raw, op) && References(raw, op.name))
      && (!answer.BadBody? && !answer.NotFound? && !answer.InUse? ==>
            exists next :: Done(raw, disk, op, next) && Follows(env, decode, op, next, fileOk, answer)
                           && after == if answer.Committed? then next else raw)
      && (!answer.Committed? ==> after == raw)
  {
    NamesAreUnique(env, decode, raw);
    TargetRefuses(raw, disk, op);
    var target := Target(raw, disk, op);
    if target.Ok? {
      TargetIsDone(raw, disk, op);
      DecidedFollows(env, decode, op, target.value, fileOk);
    }
  }

  lemma DecidedFollows(
      env: string -> string, decode: string -> Option<Json>, op: Op, next: Config, fileOk: bool)
    ensures Follows(env, decode, op, next, fileOk, Decided(env, decode, Ok(next), op.Reload?, Success(op), fileOk))
  {
  }
}
