/** Values that cross component boundaries (orchestration/contracts.py). */
module Contracts {

  datatype Option<+T> = None | Some(value: T)

  /** `Err` stands for every exception the source raises before changing state. */
  datatype Result<+T> = Ok(value: T) | Err

  datatype ReplicaKind = NATIVE | BORROWED
  datatype ReplicaState = CREATING | ACTIVE | DRAINING | DORMANT | RELEASED | QUARANTINED
  datatype OperationKind = ADD | DONATE | REMOVE | RESTORE
  datatype AttemptState = ADMITTED | TERMINATED | SETTLED
  datatype EvidenceType = WEIGHT_READY | EXIT_READY | SERVICE_COMMITTED | RELEASE_PROVED

  datatype ReplicaKey = ReplicaKey(session: string, replica: string, epoch: nat)
  datatype Command = Command(op: string, kind: OperationKind, target: ReplicaKey, lease: string, force: bool)
  datatype Evidence = Evidence(op: string, typ: EvidenceType, stamp: nat, gpus: seq<string>)

  function Elements<T>(s: seq<T>): set<T> {
    set x | x in s
  }

  // ---------------------------------------------------------------- native identity

  function Digit(d: nat): char
    requires d < 10
  {
    ['0', '1', '2', '3', '4', '5', '6', '7', '8', '9'][d]
  }

  function Decimal(n: nat): string {
    if n < 10 then [Digit(n)] else Decimal(n / 10) + [Digit(n % 10)]
  }

  function NativeKey(session: string, rank: nat): ReplicaKey {
    ReplicaKey(session, "native-" + Decimal(rank), 0)
  }

  lemma {:induction false} DecimalInjective(a: nat, b: nat)
    requires Decimal(a) == Decimal(b)
    ensures a == b
  {
    var s, t := Decimal(a), Decimal(b);
    assert s[|s| - 1] == Digit(a % 10) && t[|t| - 1] == Digit(b % 10);
    if a >= 10 && b >= 10 {
      assert s[..|s| - 1] == Decimal(a / 10) && t[..|t| - 1] == Decimal(b / 10);
      DecimalInjective(a / 10, b / 10);
    }
  }

  /** Two donors are never confused: the session and rank can be read back from the key. */
  lemma NativeKeyInjective(s: string, a: nat, t: string, b: nat)
    requires NativeKey(s, a) == NativeKey(t, b)
    ensures s == t && a == b
  {
    var x, y := NativeKey(s, a).replica, NativeKey(t, b).replica;
    assert x[7..] == Decimal(a) && y[7..] == Decimal(b);
    DecimalInjective(a, b);
  }

  // ---------------------------------------------------------------- leases

  datatype Claim = Claim(id: string, source: string, donor: string, rank: nat,
                         pg: string, bundle: nat, node: string, gpu: string)
  {
    function BundleKey(): (string, nat) { (pg, bundle) }
  }

  datatype LeaseData = LeaseData(id: string, claims: seq<Claim>, expires: real)
  {
    function Gpus(): set<string> { set c | c in claims :: c.gpu }
    function Bundles(): set<(string, nat)> { set c | c in claims :: c.BundleKey() }
    function ClaimIds(): set<string> { set c | c in claims :: c.id }
  }

  predicate Distinct<T(==)>(s: seq<T>) {
    forall i, j | 0 <= i < j < |s| :: s[i] != s[j]
  }

  predicate WellFormedClaim(c: Claim) {
    c.id != "" && c.source != "" && c.donor != "" && c.pg != "" && c.node != "" && c.gpu != ""
  }

  predicate WellFormedLease(l: LeaseData) {
    && l.id != "" && l.claims != [] && l.expires >= 0.0
    && (forall c | c in l.claims :: WellFormedClaim(c) && c.donor == l.claims[0].donor && c.rank == l.claims[0].rank)
    && (forall i, j | 0 <= i < j < |l.claims| ::
          && l.claims[i].id != l.claims[j].id
          && l.claims[i].gpu != l.claims[j].gpu
          && l.claims[i].BundleKey() != l.claims[j].BundleKey())
  }

  const SAMPLE_CLAIM := Claim("c", "s", "d", 0, "p", 0, "n", "g")

  type Lease = l: LeaseData | WellFormedLease(l) witness LeaseData("l", [SAMPLE_CLAIM], 0.0)

  /** A claim as a caller writes it: `lease_id` is the legacy spelling of `source_lease_id`. */
  datatype RawClaim = RawClaim(id: string, source: Option<string>, legacySource: Option<string>,
                               donor: string, rank: int, pg: string, bundle: int, node: string, gpu: string,
                               gpuFraction: Option<real>, cpuRequest: Option<real>)

  function RawSource(c: RawClaim): string {
    if c.source.Some? then c.source.value else if c.legacySource.Some? then c.legacySource.value else ""
  }

  function NormalizeClaim(c: RawClaim): Result<Claim> {
    if c.id != "" && RawSource(c) != ""
       && !(c.source.Some? && c.legacySource.Some? && c.source != c.legacySource)
       && c.donor != "" && c.rank >= 0 && c.pg != "" && c.node != "" && c.gpu != "" && c.bundle >= 0
       && c.gpuFraction in {None, Some(0.5)} && c.cpuRequest in {None, Some(1.0)}
    then Ok(Claim(c.id, RawSource(c), c.donor, c.rank, c.pg, c.bundle, c.node, c.gpu))
    else Err
  }

  /** What a normalised claim looks like when it is handed to the constructor again. */
  function RawOf(c: Claim): RawClaim {
    RawClaim(c.id, Some(c.source), None, c.donor, c.rank, c.pg, c.bundle, c.node, c.gpu, Some(0.5), Some(1.0))
  }

  /** The claims of a lease built from `raw`, with a placeholder where a claim is rejected. */
  function NormalizedClaims(raw: seq<RawClaim>): seq<Claim> {
    seq(|raw|, i requires 0 <= i < |raw| =>
      var n := NormalizeClaim(raw[i]); if n.Ok? then n.value else SAMPLE_CLAIM)
  }

  /**
   * The Lease constructor.  It accepts exactly when every claim normalises and the
   * normalised lease is well formed, and then returns that lease.
   */
  method MakeLease(id: string, raw: seq<RawClaim>, expires: real) returns (r: Result<Lease>)
    ensures r.Ok? <==> (forall c | c in raw :: NormalizeClaim(c).Ok?)
                       && WellFormedLease(LeaseData(id, NormalizedClaims(raw), expires))
    ensures r.Ok? ==> r.value.id == id && r.value.expires == expires && |r.value.claims| == |raw|
                      && forall i | 0 <= i < |raw| :: NormalizeClaim(raw[i]) == Ok(r.value.claims[i])
  {
    var claims: seq<Claim> := [];
    for k := 0 to |raw|
      invariant |claims| == k
      invariant forall i | 0 <= i < k :: NormalizeClaim(raw[i]) == Ok(claims[i])
    {
      var n := NormalizeClaim(raw[k]);
      if n.Err? { return Err; }
      claims := claims + [n.value];
    }
    assert claims == NormalizedClaims(raw);
    var lease := LeaseData(id, claims, expires);
    r := if WellFormedLease(lease) then Ok(lease) else Err;
  }

  /**
   * GroupScheduler detaches its ledger from callers by rebuilding every lease it stores or
   * returns; rebuilding a lease yields that same lease.
   */
  method RebuildLease(l: Lease) returns (r: Result<Lease>)
    ensures r == Ok(l)
  {
    var raw := seq(|l.claims|, i requires 0 <= i < |l.claims| => RawOf(l.claims[i]));
    forall i | 0 <= i < |raw| ensures NormalizeClaim(raw[i]) == Ok(l.claims[i]) {
      assert l.claims[i] in l.claims;
    }
    assert l.claims == NormalizedClaims(raw);
    r := MakeLease(l.id, raw, l.expires);
    assert r.value.claims == l.claims;
  }
}
