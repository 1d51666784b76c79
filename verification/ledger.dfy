/** The mock identity ledger: three append-only lists (identity records,
    recovery requests, multi-signature requests), lookup by identity ID,
    the age-based verification level, and the mock transaction history.
    Browser storage becomes the immutable `Store` value threaded through the
    operations; the clock becomes the `now` parameter (milliseconds since
    the epoch) and the random source becomes token parameters. */
module Ledger {

  import opened Wrappers
  import opened Strings
  import opened Identifiers

  const HOUR_MS: nat := 3_600_000
  const DAY_MS: nat := 86_400_000
  const WEEK_MS: nat := 604_800_000

  /** The only status the source gives an identity record. */
  datatype RecordStatus = Confirmed

  /** The only status the source gives a recovery or multi-signature request. */
  datatype RequestStatus = Pending

  /** One identity record (a "transaction"). */
  datatype Transaction = Transaction(
    id: string,
    userData: UserData,
    timestamp: int,
    blockHash: string,
    status: RecordStatus)

  /** What `registerOnBlockchain` returns to its caller. */
  datatype Registration = Registration(blockchainId: string, transaction: Transaction, success: bool)

  /** The recovery material the recovery form submits. */
  datatype BackupData = BackupData(backupPhrase: string, securityQuestion: string, securityAnswer: string)

  datatype RecoveryRequest = RecoveryRequest(
    id: string,
    email: string,
    backupData: BackupData,
    timestamp: int,
    status: RequestStatus,
    expiresAt: int)

  /** A collected signature. Nothing in the ledger ever adds one. */
  datatype Signature = Signature(verifier: string, timestamp: int)

  datatype MultiSigRequest = MultiSigRequest(
    id: string,
    blockchainId: string,
    verifiers: seq<string>,
    signatures: seq<Signature>,
    requiredSignatures: nat,
    status: RequestStatus,
    timestamp: int,
    expiresAt: int)

  /** The three stored lists; a missing list reads as empty. */
  datatype Store = Store(
    blockchainRecords: seq<Transaction>,
    recoveryRequests: seq<RecoveryRequest>,
    multiSigRequests: seq<MultiSigRequest>)

  const EmptyStore: Store := Store([], [], [])

  /** `registerOnBlockchain`: issue an ID, build its record and append it. */
  function RegisterOnBlockchain(store: Store, user: UserData, now: nat, random: string): (out: (Registration, Store))
    ensures out.0.success
    ensures out.0.transaction.status == Confirmed
    ensures out.0.blockchainId == GenerateBlockchainId(now, random)
    ensures out.0.blockchainId == out.0.transaction.id
    ensures out.0.transaction.userData == user && out.0.transaction.timestamp == now
    ensures out.0.transaction.blockHash == BlockHash(out.0.blockchainId, user)
    ensures IsRandomToken(random) && random != [] ==> ValidateBlockchainId(out.0.blockchainId)
    ensures out.1.blockchainRecords == store.blockchainRecords + [out.0.transaction]
    ensures out.1.recoveryRequests == store.recoveryRequests
    ensures out.1.multiSigRequests == store.multiSigRequests
  {
    var id := GenerateBlockchainId(now, random);
    var tx := Transaction(id, user, now, BlockHash(id, user), Confirmed);
    assert IsRandomToken(random) && random != [] ==> ValidateBlockchainId(id) by {
      if IsRandomToken(random) && random != [] {
        GeneratedIdIsValid(now, random);
      }
    }
    (Registration(id, tx, true), store.(blockchainRecords := store.blockchainRecords + [tx]))
  }

  /** The position `Array.prototype.find` stops at: the first record with
      the ID, or the length of the list when there is none. */
  function FirstIndexOf(records: seq<Transaction>, id: string): (k: nat)
    ensures k <= |records|
    ensures forall j :: 0 <= j < k ==> records[j].id != id
    ensures k < |records| ==> records[k].id == id
  {
    if records == [] then 0
    else if records[0].id == id then 0
    else 1 + FirstIndexOf(records[1..], id)
  }

  /** `getBlockchainRecord`: the first record with the ID. IDs are not
      checked for uniqueness, so later duplicates are never found. */
  function GetBlockchainRecord(store: Store, id: string): (r: Option<Transaction>)
    ensures r.None? <==> forall j :: 0 <= j < |store.blockchainRecords| ==> store.blockchainRecords[j].id != id
    ensures r.Some? ==> r.value.id == id && r.value in store.blockchainRecords
    ensures r.Some? ==> exists k :: 0 <= k < |store.blockchainRecords| && store.blockchainRecords[k] == r.value
                                   && forall j :: 0 <= j < k ==> store.blockchainRecords[j].id != id
  {
    var k := FirstIndexOf(store.blockchainRecords, id);
    if k < |store.blockchainRecords| then Some(store.blockchainRecords[k]) else None
  }

  /** What `getVerificationLevel` returns. A missing record has no description. */
  datatype Verification = Verification(level: nat, status: string, description: Option<string>)

  const Unverified: Verification := Verification(0, "unverified", None)

  /** The level for a record of the given age in milliseconds. The source
      compares `age / 3600000` against 1 and 24 in floating point; for an
      integer age those comparisons agree with the integer ones below. */
  function LevelForAge(age: int): (v: Verification)
    ensures 1 <= v.level <= 3
    ensures v.level == 1 <==> age < HOUR_MS
    ensures v.level == 2 <==> HOUR_MS <= age < DAY_MS
    ensures v.level == 3 <==> DAY_MS <= age
    ensures v.level == 1 ==> v.status == "basic" && v.description == Some("Recently registered")
    ensures v.level == 2 ==> v.status == "verified" && v.description == Some("Identity verified")
    ensures v.level == 3 ==> v.status == "trusted" && v.description == Some("Fully trusted identity")
  {
    if age < HOUR_MS then Verification(1, "basic", Some("Recently registered"))
    else if age < DAY_MS then Verification(2, "verified", Some("Identity verified"))
    else Verification(3, "trusted", Some("Fully trusted identity"))
  }

  /** The level only grows as a record ages. */
  lemma LevelMonotone(age1: int, age2: int)
    requires age1 <= age2
    ensures LevelForAge(age1).level <= LevelForAge(age2).level
  {
  }

  /** Each tier's lower bound belongs to that tier, and one millisecond
      less belongs to the tier below. */
  lemma LevelBoundariesClosed()
    ensures LevelForAge(HOUR_MS - 1).level == 1 && LevelForAge(HOUR_MS).level == 2
    ensures LevelForAge(DAY_MS - 1).level == 2 && LevelForAge(DAY_MS).level == 3
  {
  }

  /** `getVerificationLevel`: level 0 without a record, otherwise the level
      for the age of the first record with the ID. */
  function GetVerificationLevel(store: Store, id: string, now: int): (v: Verification)
    ensures v.level <= 3
    ensures v.level == 0 <==> GetBlockchainRecord(store, id).None?
    ensures v.level == 0 ==> v == Unverified
    ensures v.level > 0 ==> v == LevelForAge(now - GetBlockchainRecord(store, id).value.timestamp)
  {
    match GetBlockchainRecord(store, id)
    case None => Unverified
    case Some(record) => LevelForAge(now - record.timestamp)
  }

  /** For a fixed store, the verification level never drops as time passes. */
  lemma VerificationMonotoneInTime(store: Store, id: string, now1: int, now2: int)
    requires now1 <= now2
    ensures GetVerificationLevel(store, id, now1).level <= GetVerificationLevel(store, id, now2).level
  {
    match GetBlockchainRecord(store, id)
    case None =>
    case Some(r) => LevelMonotone(now1 - r.timestamp, now2 - r.timestamp);
  }

  /** One entry of the mock transaction history. */
  datatype HistoryEntry = HistoryEntry(
    id: string,
    kind: string,
    timestamp: int,
    status: RecordStatus,
    blockHeight: int,
    gasUsed: string,
    fee: string)

  /** The random parts of one history entry: its transaction ID and block height. */
  datatype TxNonce = TxNonce(txId: string, blockHeight: int)

  /** `getBlockchainHistory`: nothing for an unknown ID; otherwise a
      registration entry stamped with the record's time and a verification
      entry stamped one hour before `now`. */
  function GetBlockchainHistory(store: Store, id: string, now: int, first: TxNonce, second: TxNonce): (h: seq<HistoryEntry>)
    ensures h == [] <==> GetBlockchainRecord(store, id).None?
    ensures h != [] ==> (
      && |h| == 2
      && h[0].kind == "registration" && h[0].timestamp == GetBlockchainRecord(store, id).value.timestamp
      && h[1].kind == "verification" && h[1].timestamp == now - HOUR_MS
      && h[0].status == Confirmed && h[1].status == Confirmed)
  {
    match GetBlockchainRecord(store, id)
    case None => []
    case Some(record) =>
      [ HistoryEntry(first.txId, "registration", record.timestamp, Confirmed, first.blockHeight, "21000", "0.001 ETH"),
        HistoryEntry(second.txId, "verification", now - HOUR_MS, Confirmed, second.blockHeight, "15000", "0.0005 ETH") ]
  }

  /** An ID has a history exactly when it has a non-zero verification level. */
  lemma HistoryIffVerified(store: Store, id: string, now: int, first: TxNonce, second: TxNonce)
    ensures GetBlockchainHistory(store, id, now, first, second) != [] <==> GetVerificationLevel(store, id, now).level > 0
  {
  }

  /** `initiateIdRecovery`: a pending request valid for 24 hours, appended
      to the recovery list. Nothing checks the email against any identity,
      and repeated requests are all kept. */
  function InitiateIdRecovery(store: Store, email: string, backupData: BackupData, now: nat, random: string): (out: (RecoveryRequest, Store))
    ensures out.0.id == RecoveryId(now, random)
    ensures out.0.email == email && out.0.backupData == backupData
    ensures out.0.status == Pending
    ensures out.0.timestamp == now && out.0.expiresAt - out.0.timestamp == DAY_MS
    ensures out.1.recoveryRequests == store.recoveryRequests + [out.0]
    ensures out.1.blockchainRecords == store.blockchainRecords
    ensures out.1.multiSigRequests == store.multiSigRequests
  {
    var request := RecoveryRequest(RecoveryId(now, random), email, backupData, now, Pending, now + DAY_MS);
    (request, store.(recoveryRequests := store.recoveryRequests + [request]))
  }

  /** `Math.ceil(n / 2)`: the least number of signatures that is at least
      half of `n` verifiers. */
  function RequiredSignatures(n: nat): (req: nat)
    ensures 2 * req >= n
    ensures req == 0 || 2 * (req - 1) < n
  {
    (n + 1) / 2
  }

  /** A majority threshold: exactly half for an even number of verifiers,
      one more than half the rest for an odd number, and zero for none. */
  lemma RequiredSignaturesValues(n: nat)
    ensures n % 2 == 0 ==> RequiredSignatures(n) == n / 2
    ensures n % 2 == 1 ==> RequiredSignatures(n) == n / 2 + 1
    ensures RequiredSignatures(n) <= n
  {
  }

  /** `createMultiSigVerification`: a pending request with no signatures,
      valid for seven days, appended to the multi-signature list. An empty
      verifier list is accepted and needs no signature at all. */
  function CreateMultiSigVerification(store: Store, blockchainId: string, verifiers: seq<string>, now: nat, random: string): (out: (MultiSigRequest, Store))
    ensures out.0.id == MultiSigId(now, random)
    ensures out.0.blockchainId == blockchainId && out.0.verifiers == verifiers
    ensures out.0.signatures == [] && out.0.status == Pending
    ensures 2 * out.0.requiredSignatures >= |verifiers|
    ensures out.0.requiredSignatures == 0 || 2 * (out.0.requiredSignatures - 1) < |verifiers|
    ensures out.0.timestamp == now && out.0.expiresAt - out.0.timestamp == WEEK_MS
    ensures out.1.multiSigRequests == store.multiSigRequests + [out.0]
    ensures out.1.blockchainRecords == store.blockchainRecords
    ensures out.1.recoveryRequests == store.recoveryRequests
  {
    var request := MultiSigRequest(MultiSigId(now, random), blockchainId, verifiers, [], RequiredSignatures(|verifiers|), Pending, now, now + WEEK_MS);
    (request, store.(multiSigRequests := store.multiSigRequests + [request]))
  }

  /** The three store-changing calls, with their clock and random inputs. */
  datatype Operation =
    | Register(user: UserData, now: nat, random: string)
    | Recover(email: string, backupData: BackupData, now: nat, random: string)
    | RequestMultiSig(blockchainId: string, verifiers: seq<string>, now: nat, random: string)

  function Apply(store: Store, op: Operation): Store
  {
    match op
    case Register(user, now, random) => RegisterOnBlockchain(store, user, now, random).1
    case Recover(email, backup, now, random) => InitiateIdRecovery(store, email, backup, now, random).1
    case RequestMultiSig(id, verifiers, now, random) => CreateMultiSigVerification(store, id, verifiers, now, random).1
  }

  function Run(store: Store, ops: seq<Operation>): Store
    decreases |ops|
  {
    if ops == [] then store else Run(Apply(store, ops[0]), ops[1..])
  }

  /** Every list of `later` starts with the corresponding list of `earlier`. */
  ghost predicate Extends(earlier: Store, later: Store)
  {
    && earlier.blockchainRecords <= later.blockchainRecords
    && earlier.recoveryRequests <= later.recoveryRequests
    && earlier.multiSigRequests <= later.multiSigRequests
  }

  function Size(store: Store): nat
  {
    |store.blockchainRecords| + |store.recoveryRequests| + |store.multiSigRequests|
  }

  /** The store is append-only: any sequence of operations keeps every
      earlier entry in place and adds exactly one entry per operation. */
  lemma {:induction false} RunExtends(store: Store, ops: seq<Operation>)
    decreases |ops|
    ensures Extends(store, Run(store, ops))
    ensures Size(Run(store, ops)) == Size(store) + |ops|
  {
    if ops != [] {
      var next := Apply(store, ops[0]);
      ApplyExtends(store, ops[0]);
      RunExtends(next, ops[1..]);
      ExtendsTransitive(store, next, Run(next, ops[1..]));
    }
  }

  lemma ApplyExtends(store: Store, op: Operation)
    ensures Extends(store, Apply(store, op))
    ensures Size(Apply(store, op)) == Size(store) + 1
  {
  }

  lemma ExtendsTransitive(a: Store, b: Store, c: Store)
    requires Extends(a, b) && Extends(b, c)
    ensures Extends(a, c)
  {
  }

  /** Once an ID is found, later appends never change which record is found. */
  lemma {:induction false} LookupStable(store: Store, ops: seq<Operation>, id: string)
    requires GetBlockchainRecord(store, id).Some?
    ensures GetBlockchainRecord(Run(store, ops), id) == GetBlockchainRecord(store, id)
  {
    RunExtends(store, ops);
    FirstIndexOfPrefix(store.blockchainRecords, Run(store, ops).blockchainRecords, id);
  }

  lemma {:induction false} FirstIndexOfPrefix(before: seq<Transaction>, after: seq<Transaction>, id: string)
    requires before <= after
    requires FirstIndexOf(before, id) < |before|
    ensures FirstIndexOf(after, id) == FirstIndexOf(before, id)
  {
    if before[0].id != id {
      assert before[1..] <= after[1..];
      FirstIndexOfPrefix(before[1..], after[1..], id);
    }
  }

  /** A registered ID is found straight away, at trust level 1. If the same
      ID was registered before, the earlier record is the one found. */
  lemma RegisterThenLookup(store: Store, user: UserData, now: nat, random: string)
    ensures var (reg, next) := RegisterOnBlockchain(store, user, now, random);
            && GetBlockchainRecord(next, reg.blockchainId).Some?
            && (GetBlockchainRecord(store, reg.blockchainId).None? ==>
                  GetBlockchainRecord(next, reg.blockchainId) == Some(reg.transaction)
                  && GetVerificationLevel(next, reg.blockchainId, now) == LevelForAge(0))
            && (GetBlockchainRecord(store, reg.blockchainId).Some? ==>
                  GetBlockchainRecord(next, reg.blockchainId) == GetBlockchainRecord(store, reg.blockchainId))
  {
    var (reg, next) := RegisterOnBlockchain(store, user, now, random);
    var id := reg.blockchainId;
    var records := store.blockchainRecords;
    if GetBlockchainRecord(store, id).Some? {
      LookupStable(store, [Register(user, now, random)], id);
      assert Run(store, [Register(user, now, random)]) == next;
    } else {
      assert next.blockchainRecords[|records|] == reg.transaction;
    }
  }

  /** A newly registered user, looked up after 30 minutes, 2 hours and
      48 hours, reads as basic, verified and trusted. */
  lemma RegistrationLifecycle(user: UserData, t0: nat, random: string)
    ensures var (reg, store) := RegisterOnBlockchain(EmptyStore, user, t0, random);
            && GetVerificationLevel(store, reg.blockchainId, t0 + 30 * 60_000).status == "basic"
            && GetVerificationLevel(store, reg.blockchainId, t0 + 2 * HOUR_MS).status == "verified"
            && GetVerificationLevel(store, reg.blockchainId, t0 + 48 * HOUR_MS).status == "trusted"
  {
    RegisterThenLookup(EmptyStore, user, t0, random);
  }
}
