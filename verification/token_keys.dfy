/** Stored tokens: the sweep that moves them under the primary key, and the rotations that
    interfere with it. The cipher is any authenticated cipher that opens what it sealed. */
module TokenKeys {
  import opened Domain
  import Database

  type Bytes = seq<bv8>
  type Kid = string

  const NONCE_BYTES := 12

  datatype Cipher = Cipher(
    keys: set<Kid>,
    primary: Kid,
    seal: (Kid, Bytes, Bytes, Id) -> Bytes,
    open: (Kid, Bytes, Bytes, Id) -> Option<Bytes>)
  {
    /** The primary key is configured, and every key opens what it sealed for a character. */
    ghost predicate Sound() {
      && primary in keys
      && forall kid, nonce, text, owner :: open(kid, nonce, seal(kid, nonce, text, owner), owner) == Some(text)
    }

    predicate Opens(kid: Kid, nonce: Bytes, text: Bytes, owner: Id) {
      |nonce| == NONCE_BYTES && open(kid, nonce, text, owner).Some?
    }

    function Decrypt(text: Bytes, nonce: Bytes, kid: Kid, owner: Id): Result<Bytes> {
      if |nonce| != NONCE_BYTES || kid !in keys then Err(Internal) else
        match open(kid, nonce, text, owner)
        case None => Err(Internal)
        case Some(plain) => Ok(plain)
    }
  }

  datatype Row = Row(
    owner: Id,
    refresh: Bytes,
    refreshNonce: Bytes,
    access: Option<Bytes>,
    accessNonce: Option<Bytes>,
    kid: Kid)

  datatype Tokens = Tokens(refresh: Bytes, access: Option<Bytes>)

  /** What loading a row's tokens gives: an access token needs both of its columns. */
  function Load(c: Cipher, row: Row): Result<Tokens> {
    match c.Decrypt(row.refresh, row.refreshNonce, row.kid, row.owner)
    case Err(e) => Err(e)
    case Ok(refresh) =>
      if row.access.None? || row.accessNonce.None? then Ok(Tokens(refresh, None)) else
        match c.Decrypt(row.access.value, row.accessNonce.value, row.kid, row.owner)
        case Err(e) => Err(e)
        case Ok(access) => Ok(Tokens(refresh, Some(access)))
  }

  /** The nonces that two encryptions for one row draw. */
  datatype Draw = Draw(first: Bytes, second: Bytes) {
    predicate Fits() {
      |first| == NONCE_BYTES && |second| == NONCE_BYTES
    }
  }

  /** The row with these tokens sealed under the primary key. */
  function Seal(c: Cipher, row: Row, tokens: Tokens, draw: Draw): Row {
    var access := match tokens.access
      case None => None
      case Some(plain) => Some(c.seal(c.primary, draw.second, plain, row.owner));
    Row(row.owner, c.seal(c.primary, draw.first, tokens.refresh, row.owner), draw.first,
        access, if tokens.access.None? then None else Some(draw.second), c.primary)
  }

  lemma SealedLoads(c: Cipher, row: Row, tokens: Tokens, draw: Draw)
    requires c.Sound() && draw.Fits()
    ensures Load(c, Seal(c, row, tokens, draw)) == Ok(tokens)
  {
  }

  // ── Sweeps ────────────────────────────────────────────────────────────────

  function Stale(c: Cipher, rows: map<Id, Row>): set<Id> {
    set id | id in rows && rows[id].kid != c.primary
  }

  function Resealed(c: Cipher, rows: map<Id, Row>, picked: set<Id>, draws: map<Id, Draw>): map<Id, Row>
    requires picked <= rows.Keys && picked <= draws.Keys
  {
    map id | id in rows ::
      if id in picked && Load(c, rows[id]).Ok? then Seal(c, rows[id], Load(c, rows[id]).value, draws[id]) else rows[id]
  }

  /** A sweep is one transaction: a row that does not load undoes all of it. */
  function Sweep(c: Cipher, rows: map<Id, Row>, picked: set<Id>, draws: map<Id, Draw>): Result<map<Id, Row>>
    requires picked <= rows.Keys && picked <= draws.Keys
  {
    if forall id | id in picked :: Load(c, rows[id]).Ok? then Ok(Resealed(c, rows, picked, draws)) else Err(Internal)
  }

  class TokenTable {
    var rows: map<Id, Row>

    constructor (rows: map<Id, Row>)
      ensures this.rows == rows
    {
      this.rows := rows;
    }

    /** Gives back what was sealed, and fails when the key is unknown or a column does not open. */
    method DecryptRow(c: Cipher, row: Row) returns (tokens: Result<Tokens>)
      ensures tokens == Load(c, row)
      ensures forall was: Row, plain: Tokens, draw: Draw ::
                c.Sound() && draw.Fits() && row == Seal(c, was, plain, draw) ==> tokens == Ok(plain)
      ensures tokens.Ok? <==>
              && row.kid in c.keys && c.Opens(row.kid, row.refreshNonce, row.refresh, row.owner)
              && (row.access.Some? && row.accessNonce.Some? ==>
                    c.Opens(row.kid, row.accessNonce.value, row.access.value, row.owner))
      ensures tokens.Ok? ==>
                && c.open(row.kid, row.refreshNonce, row.refresh, row.owner) == Some(tokens.value.refresh)
                && tokens.value.access ==
                   if row.access.None? || row.accessNonce.None? then None
                   else c.open(row.kid, row.accessNonce.value, row.access.value, row.owner)
    {
      var refresh := c.Decrypt(row.refresh, row.refreshNonce, row.kid, row.owner);
      if refresh.Err? {
        return Err(refresh.error);
      }
      if row.access.None? || row.accessNonce.None? {
        return Ok(Tokens(refresh.value, None));
      }
      var access := c.Decrypt(row.access.value, row.accessNonce.value, row.kid, row.owner);
      if access.Err? {
        return Err(access.error);
      }
      tokens := Ok(Tokens(refresh.value, Some(access.value)));
    }

    /** Rewrites the locked rows one after the other and counts them; `picked` is what the
        query returned, in its order. */
    method ReencryptStale(c: Cipher, picked: seq<Id>, draws: map<Id, Draw>) returns (rewritten: Result<nat>)
      requires forall i, j | 0 <= i < j < |picked| :: picked[i] != picked[j]
      requires forall id | id in picked :: id in rows && id in draws
      modifies this`rows
      ensures var ids := set id | id in picked;
              match Sweep(c, old(rows), ids, draws)
              case Ok(after) => rows == after && rewritten == Ok(|picked|)
              case Err(e) => rows == old(rows) && rewritten == Err(e)
    {
      hide Load, Seal;
      var count := 0;
      var work := rows;
      for i := 0 to |picked|
        invariant rows == old(rows) && work.Keys == rows.Keys && count == i
        invariant forall id | id in picked[..i] :: Load(c, rows[id]).Ok?
        invariant forall id | id in rows ::
                    work[id] == if id in picked[..i] then Seal(c, rows[id], Load(c, rows[id]).value, draws[id]) else rows[id]
      {
        var id := picked[i];
        var row := rows[id];
        var tokens := DecryptRow(c, row);
        if tokens.Err? {
          LoadFailsInternally(c, row);
          return Err(tokens.error);
        }
        if work[id].kid == row.kid {
          work := work[id := Seal(c, row, tokens.value, draws[id])];
          count := count + 1;
        }
      }
      ghost var ids := set id | id in picked;
      Database.SameRows(work, Resealed(c, rows, ids, draws));
      rows := work;
      rewritten := Ok(count);
    }
  }

  lemma LoadFailsInternally(c: Cipher, row: Row)
    requires Load(c, row).Err?
    ensures Load(c, row) == Err(Internal)
  {
  }

  lemma StaleAfterSweep(c: Cipher, rows: map<Id, Row>, picked: set<Id>, draws: map<Id, Draw>)
    requires picked <= rows.Keys && picked <= draws.Keys && Sweep(c, rows, picked, draws).Ok?
    ensures Stale(c, Sweep(c, rows, picked, draws).value) == Stale(c, rows) - picked
  {
  }

  /** A sweep over stale rows lowers their number by exactly the rows it picked. */
  lemma SweepLowersStale(c: Cipher, rows: map<Id, Row>, picked: set<Id>, draws: map<Id, Draw>)
    requires picked <= Stale(c, rows) && picked <= draws.Keys && Sweep(c, rows, picked, draws).Ok?
    ensures |Stale(c, Sweep(c, rows, picked, draws).value)| == |Stale(c, rows)| - |picked|
  {
    StaleAfterSweep(c, rows, picked, draws);
    assert Stale(c, rows) == (Stale(c, rows) - picked) + picked;
  }

  /** Every row loads the tokens that it loaded before the sweep. */
  lemma SweepKeepsTokens(c: Cipher, rows: map<Id, Row>, picked: set<Id>, draws: map<Id, Draw>, id: Id)
    requires c.Sound() && picked <= rows.Keys && picked <= draws.Keys && Sweep(c, rows, picked, draws).Ok?
    requires forall d | d in draws :: draws[d].Fits()
    requires id in rows
    ensures Sweep(c, rows, picked, draws).value.Keys == rows.Keys
    ensures Load(c, Sweep(c, rows, picked, draws).value[id]) == Load(c, rows[id])
  {
  }

  // ── Runs with rotations in between ────────────────────────────────────────

  datatype Step =
    | DoSweep(picked: set<Id>, draws: map<Id, Draw>)
    | DoRotate(id: Id, tokens: Tokens, draw: Draw)

  /** Sweeps pick at most a batch of stale rows; fewer only when other transactions hold
      rows locked or not enough are stale. */
  predicate Enabled(c: Cipher, rows: map<Id, Row>, step: Step, batch: nat) {
    match step
    case DoSweep(picked, draws) =>
      && picked <= Stale(c, rows) && picked <= draws.Keys && |picked| <= batch
      && forall d | d in draws :: draws[d].Fits()
    case DoRotate(id, tokens, draw) => id in rows && tokens.access.Some? && draw.Fits()
  }

  /** Nobody holds a stale row locked while the sweep picks. */
  predicate Uncontended(c: Cipher, rows: map<Id, Row>, step: Step, batch: nat) {
    step.DoSweep? && (|step.picked| == batch || step.picked == Stale(c, rows))
  }

  function Apply(c: Cipher, rows: map<Id, Row>, step: Step, batch: nat): map<Id, Row>
    requires Enabled(c, rows, step, batch)
  {
    match step
    case DoSweep(picked, draws) =>
      (match Sweep(c, rows, picked, draws) case Ok(after) => after case Err(_) => rows)
    case DoRotate(id, tokens, draw) => rows[id := Seal(c, rows[id], tokens, draw)]
  }

  ghost predicate IsRun(c: Cipher, states: seq<map<Id, Row>>, steps: seq<Step>, batch: nat) {
    && |states| == |steps| + 1
    && forall k | 0 <= k < |steps| ::
         Enabled(c, states[k], steps[k], batch) && states[k + 1] == Apply(c, states[k], steps[k], batch)
  }

  /** All keys are known and all ciphertexts are intact. */
  ghost predicate AllLoad(c: Cipher, rows: map<Id, Row>) {
    forall id | id in rows :: Load(c, rows[id]).Ok?
  }

  /** The tokens that `id` should load after a step: a rotation's, or those before it. */
  function TokensAfter(tokens: Result<Tokens>, step: Step, id: Id): Result<Tokens> {
    if step.DoRotate? && step.id == id then Ok(step.tokens) else tokens
  }

  function TokensAfterAll(tokens: Result<Tokens>, steps: seq<Step>, id: Id): Result<Tokens> {
    if steps == [] then tokens
    else TokensAfter(TokensAfterAll(tokens, steps[..|steps| - 1], id), steps[|steps| - 1], id)
  }

  lemma StepLoads(c: Cipher, rows: map<Id, Row>, step: Step, batch: nat, id: Id)
    requires c.Sound() && Enabled(c, rows, step, batch) && id in rows
    ensures id in Apply(c, rows, step, batch)
    ensures Load(c, Apply(c, rows, step, batch)[id]) == TokensAfter(Load(c, rows[id]), step, id)
  {
    hide Load, Seal, Cipher.Sound, Resealed;
    match step
    case DoSweep(picked, draws) =>
      if Sweep(c, rows, picked, draws).Ok? {
        SweepKeepsTokens(c, rows, picked, draws, id);
      }
    case DoRotate(rotated, tokens, draw) =>
      SealedLoads(c, rows[rotated], tokens, draw);
  }

  /** Whatever sweeps and rotations do, each row loads what was last rotated into it. */
  lemma {:induction false} RunKeepsTokens(
      c: Cipher, states: seq<map<Id, Row>>, steps: seq<Step>, batch: nat, k: nat, id: Id)
    requires c.Sound() && IsRun(c, states, steps, batch) && k <= |steps| && id in states[0]
    ensures id in states[k]
    ensures Load(c, states[k][id]) == TokensAfterAll(Load(c, states[0][id]), steps[..k], id)
  {
    hide Load, Cipher.Sound, Enabled, Apply, TokensAfter;
    if k > 0 {
      RunKeepsTokens(c, states, steps, batch, k - 1, id);
      assert steps[..k][..k - 1] == steps[..k - 1];
      StepLoads(c, states[k - 1], steps[k - 1], batch, id);
    }
  }

  lemma StepKeepsLoading(c: Cipher, rows: map<Id, Row>, step: Step, batch: nat)
    requires c.Sound() && Enabled(c, rows, step, batch) && AllLoad(c, rows)
    ensures AllLoad(c, Apply(c, rows, step, batch)) && Apply(c, rows, step, batch).Keys == rows.Keys
  {
    hide Load, Seal, Cipher.Sound;
    assert Apply(c, rows, step, batch).Keys == rows.Keys;
    forall id | id in rows
      ensures Load(c, Apply(c, rows, step, batch)[id]).Ok?
    {
      StepLoads(c, rows, step, batch, id);
    }
  }

  /** No step makes a row stale, and an uncontended sweep migrates a full batch or the rest. */
  lemma StepLowersStale(c: Cipher, rows: map<Id, Row>, step: Step, batch: nat)
    requires Enabled(c, rows, step, batch) && AllLoad(c, rows)
    ensures var after := |Stale(c, Apply(c, rows, step, batch))|;
            && after <= |Stale(c, rows)|
            && (Uncontended(c, rows, step, batch) ==>
                  after == if |Stale(c, rows)| <= batch then 0 else |Stale(c, rows)| - batch)
  {
    hide Load;
    match step
    case DoSweep(picked, draws) =>
      SweepLowersStale(c, rows, picked, draws);
      SubsetSize(picked, Stale(c, rows));
    case DoRotate(id, tokens, draw) =>
      assert Stale(c, Apply(c, rows, step, batch)) == Stale(c, rows) - {id};
      SubsetSize(Stale(c, rows) - {id}, Stale(c, rows));
  }

  lemma SubsetSize(a: set<Id>, b: set<Id>)
    requires a <= b
    ensures |a| <= |b| && (|a| == |b| ==> a == b)
  {
    assert b == a + (b - a);
  }

  /** How many of the first `k` steps are uncontended sweeps. */
  ghost function FullSweeps(c: Cipher, states: seq<map<Id, Row>>, steps: seq<Step>, batch: nat, k: nat): nat
    requires |states| == |steps| + 1 && k <= |steps|
  {
    if k == 0 then 0
    else FullSweeps(c, states, steps, batch, k - 1) + (if Uncontended(c, states[k - 1], steps[k - 1], batch) then 1 else 0)
  }

  lemma {:induction false} StaleAfterRun(c: Cipher, states: seq<map<Id, Row>>, steps: seq<Step>, batch: nat, k: nat)
    requires c.Sound() && IsRun(c, states, steps, batch) && k <= |steps| && AllLoad(c, states[0])
    ensures AllLoad(c, states[k])
    ensures |Stale(c, states[k])| == 0
            || |Stale(c, states[k])| + FullSweeps(c, states, steps, batch, k) * batch <= |Stale(c, states[0])|
  {
    hide Load, Cipher.Sound, Enabled, Apply, AllLoad, Stale, Uncontended;
    if k > 0 {
      StaleAfterRun(c, states, steps, batch, k - 1);
      StepKeepsLoading(c, states[k - 1], steps[k - 1], batch);
      StepLowersStale(c, states[k - 1], steps[k - 1], batch);
      var before := FullSweeps(c, states, steps, batch, k - 1);
      assert (before + 1) * batch == before * batch + batch;
    }
  }

  /** As many uncontended sweeps as batches are needed leave no stale row, however many
      rotations and contended sweeps happen in between. */
  lemma SweepsReachZero(c: Cipher, states: seq<map<Id, Row>>, steps: seq<Step>, batch: nat)
    requires c.Sound() && IsRun(c, states, steps, batch) && AllLoad(c, states[0])
    requires FullSweeps(c, states, steps, batch, |steps|) * batch >= |Stale(c, states[0])|
    ensures forall id | id in states[|steps|] :: states[|steps|][id].kid == c.primary
  {
    hide FullSweeps, Apply, Enabled;
    StaleAfterRun(c, states, steps, batch, |steps|);
    var last := states[|steps|];
    assert forall id | id in last && last[id].kid != c.primary :: id in Stale(c, last);
  }

  /** A row that does not load, say because its key is no longer configured, fails every
      sweep that picks it: then nothing of the batch is migrated. */
  lemma SweepFailsIffARowDoesNotLoad(c: Cipher, rows: map<Id, Row>, picked: set<Id>, draws: map<Id, Draw>)
    requires picked <= rows.Keys && picked <= draws.Keys
    ensures Sweep(c, rows, picked, draws).Err? <==> exists id | id in picked :: Load(c, rows[id]).Err?
  {
  }

  // ── Writing back what a client rotated ────────────────────────────────────

  /** A cached client remembers the hash of the refresh token that it last looked at. */
  datatype Cached = Cached(lastHash: nat, rows: map<Id, Row>)

  /** The hash is swapped before anything is written; an unchanged hash ends the call. */
  function Persist(
      c: Cipher, hash: Bytes -> nat, s: Cached, id: Id, tokens: Tokens, draw: Draw, writes: bool)
    : (Cached, Result<bool>)
  {
    var seen := s.(lastHash := hash(tokens.refresh));
    if s.lastHash == hash(tokens.refresh) then (seen, Ok(false))
    else if !writes then (seen, Err(Internal))
    else if id !in s.rows then (seen, Ok(true))
    else (seen.(rows := s.rows[id := Seal(c, s.rows[id], tokens, draw)]), Ok(true))
  }

  /** The row holds `tokens` and the client remembers their hash. */
  ghost predicate InSync(c: Cipher, hash: Bytes -> nat, s: Cached, id: Id, tokens: Tokens) {
    id in s.rows && Load(c, s.rows[id]) == Ok(tokens) && s.lastHash == hash(tokens.refresh)
  }

  /** One look at a client's tokens: what it finds, the nonces it draws, and whether a write
      would succeed. */
  datatype Look = Look(tokens: Tokens, draw: Draw, writes: bool)

  function PersistAll(c: Cipher, hash: Bytes -> nat, s: Cached, id: Id, looks: seq<Look>): Cached {
    if looks == [] then s else
      var before, last := PersistAll(c, hash, s, id, looks[..|looks| - 1]), looks[|looks| - 1];
      Persist(c, hash, before, id, last.tokens, last.draw, last.writes).0
  }

  /** Rotated tokens are stored exactly when the write succeeds and the hash differs from the
      one remembered. */
  lemma RotationStoredIff(
      c: Cipher, hash: Bytes -> nat, s: Cached, id: Id, was: Tokens, tokens: Tokens, draw: Draw, writes: bool)
    requires c.Sound() && draw.Fits() && id in s.rows && Load(c, s.rows[id]) == Ok(was) && was.refresh != tokens.refresh
    ensures InSync(c, hash, Persist(c, hash, s, id, tokens, draw, writes).0, id, tokens)
            <==> writes && hash(tokens.refresh) != s.lastHash
  {
    SealedLoads(c, s.rows[id], tokens, draw);
  }

  /** A row only ever loads tokens that it held before or that were found in the client, and
      the client remembers the hash it saw last. */
  lemma {:induction false} LoadsWhatWasFound(
      c: Cipher, hash: Bytes -> nat, s: Cached, id: Id, looks: seq<Look>, found: Bytes)
    requires c.Sound() && id in s.rows && Load(c, s.rows[id]).Ok? && Load(c, s.rows[id]).value.refresh != found
    requires forall look | look in looks :: look.draw.Fits() && look.tokens.refresh != found
    ensures var after := PersistAll(c, hash, s, id, looks);
            && id in after.rows && Load(c, after.rows[id]).Ok? && Load(c, after.rows[id]).value.refresh != found
            && after.lastHash == if looks == [] then s.lastHash else hash(looks[|looks| - 1].tokens.refresh)
    decreases |looks|
  {
    hide Load, Seal, Cipher.Sound;
    if looks != [] {
      var before, last := looks[..|looks| - 1], looks[|looks| - 1];
      LoadsWhatWasFound(c, hash, s, id, before, found);
      SealedLoads(c, PersistAll(c, hash, s, id, before).rows[id], last.tokens, last.draw);
    }
  }

  /** A look that finds the remembered hash changes nothing, however often it is repeated. */
  lemma {:induction false} NothingNew(c: Cipher, hash: Bytes -> nat, s: Cached, id: Id, looks: seq<Look>, k: nat)
    requires k < |looks| && forall j | k <= j < |looks| :: looks[j].tokens == looks[k].tokens
    ensures PersistAll(c, hash, s, id, looks) == PersistAll(c, hash, s, id, looks[..k + 1])
    ensures PersistAll(c, hash, s, id, looks).lastHash == hash(looks[k].tokens.refresh)
    decreases |looks|
  {
    hide Seal;
    var before := looks[..|looks| - 1];
    if k == |before| {
      assert looks[..k + 1] == looks;
    } else {
      NothingNew(c, hash, s, id, before, k);
      assert before[..k + 1] == looks[..k + 1];
    }
  }

  /** Over any run of looks, the tokens that the client holds from look `k` on end up stored
      exactly when the write of that very look succeeds and their hash differs from the one
      seen before. A write that fails there is never made up for: the hash is already swapped. */
  lemma RotationSurvivesIffFirstWriteSucceeds(
      c: Cipher, hash: Bytes -> nat, s: Cached, id: Id, was: Tokens, looks: seq<Look>, k: nat)
    requires c.Sound() && id in s.rows && Load(c, s.rows[id]) == Ok(was)
    requires k < |looks| && forall j | k <= j < |looks| :: looks[j].tokens == looks[k].tokens
    requires forall look | look in looks :: look.draw.Fits()
    requires was.refresh != looks[k].tokens.refresh
    requires forall j | 0 <= j < k :: looks[j].tokens.refresh != looks[k].tokens.refresh
    ensures var seen := if k == 0 then s.lastHash else hash(looks[k - 1].tokens.refresh);
            InSync(c, hash, PersistAll(c, hash, s, id, looks), id, looks[k].tokens)
            <==> looks[k].writes && hash(looks[k].tokens.refresh) != seen
  {
    hide Load, Cipher.Sound, Persist, InSync;
    var look := looks[k];
    LoadsWhatWasFound(c, hash, s, id, looks[..k], look.tokens.refresh);
    var before := PersistAll(c, hash, s, id, looks[..k]);
    NothingNew(c, hash, s, id, looks, k);
    assert looks[..k + 1][..k] == looks[..k];
    RotationStoredIff(
      c, hash, before, id, Load(c, before.rows[id]).value, look.tokens, look.draw, look.writes);
  }
}
