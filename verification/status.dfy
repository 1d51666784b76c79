/** The helpers of the identity-status panel: the colour and icon of a
    verification level, the trust score shown for it, and the loading step
    that does nothing without an identity ID. The network status card is
    not modelled. */
module BlockchainStatus {

  import opened Wrappers
  import opened Ledger

  /** The badge colour of a verification level. */
  datatype LevelColor = YellowBadge | BlueBadge | GreenBadge | GrayBadge
  {
    function ClassName(): string
    {
      match this
      case YellowBadge => "bg-yellow-100 text-yellow-800 border-yellow-200"
      case BlueBadge => "bg-blue-100 text-blue-800 border-blue-200"
      case GreenBadge => "bg-green-100 text-green-800 border-green-200"
      case GrayBadge => "bg-gray-100 text-gray-800 border-gray-200"
    }
  }

  /** The icon of a verification level. */
  datatype LevelIcon = Clock | CheckCircle | Shield | AlertTriangle

  /** `getVerificationColor`. */
  function VerificationColor(level: int): (c: LevelColor)
    ensures c == YellowBadge <==> level == 1
    ensures c == BlueBadge <==> level == 2
    ensures c == GreenBadge <==> level == 3
    ensures c == GrayBadge <==> level !in {1, 2, 3}
  {
    match level
    case 1 => YellowBadge
    case 2 => BlueBadge
    case 3 => GreenBadge
    case _ => GrayBadge
  }

  /** `getVerificationIcon`. */
  function VerificationIcon(level: int): (i: LevelIcon)
    ensures i == Clock <==> level == 1
    ensures i == CheckCircle <==> level == 2
    ensures i == Shield <==> level == 3
    ensures i == AlertTriangle <==> level !in {1, 2, 3}
  {
    match level
    case 1 => Clock
    case 2 => CheckCircle
    case 3 => Shield
    case _ => AlertTriangle
  }

  /** The badge is gray exactly when the icon is the warning triangle, which
      for a ledger level means an unverified ID. */
  lemma ColorAgreesWithIcon(store: Store, id: string, now: int)
    ensures var level := GetVerificationLevel(store, id, now).level;
            (VerificationColor(level) == GrayBadge <==> VerificationIcon(level) == AlertTriangle)
            && (VerificationColor(level) == GrayBadge <==> level == 0)
  {
  }

  /** The trust score, in percent, shown for a level. */
  function TrustScore(level: int): (score: int)
    ensures 0 <= level <= 3 ==> 0 <= score <= 100
    ensures score == 0 <==> level == 0
  {
    level * 33
  }

  /** Every score the ledger can produce is one of 0, 33, 66 or 99, so the
      progress bar never passes 100. */
  lemma TrustScoreRange(store: Store, id: string, now: int)
    ensures TrustScore(GetVerificationLevel(store, id, now).level) in {0, 33, 66, 99}
    ensures 0 <= TrustScore(GetVerificationLevel(store, id, now).level) <= 100
  {
  }

  /** The displayed trust score of an ID never drops as time passes. */
  lemma TrustScoreMonotoneInTime(store: Store, id: string, now1: int, now2: int)
    requires now1 <= now2
    ensures TrustScore(GetVerificationLevel(store, id, now1).level)
         <= TrustScore(GetVerificationLevel(store, id, now2).level)
  {
    VerificationMonotoneInTime(store, id, now1, now2);
  }

  /** What the panel shows: the placeholder, or the verification and the
      history that loading found. */
  datatype Panel = Placeholder | Loaded(verification: Verification, history: seq<HistoryEntry>)

  /** `loadBlockchainData` and the placeholder return: without an ID
      (missing or empty) nothing is queried; otherwise the level and the
      history of the ID are loaded. */
  function LoadBlockchainData(blockchainId: Option<string>, store: Store, now: int, first: TxNonce, second: TxNonce): (p: Panel)
    ensures p == Placeholder <==> blockchainId == None || blockchainId == Some("")
    ensures p.Loaded? ==> p.verification == GetVerificationLevel(store, blockchainId.value, now)
    ensures p.Loaded? ==> p.history == GetBlockchainHistory(store, blockchainId.value, now, first, second)
    ensures p.Loaded? ==> (p.history == [] <==> p.verification.level == 0)
  {
    match blockchainId
    case None => Placeholder
    case Some(id) =>
      if id == [] then Placeholder
      else
        HistoryIffVerified(store, id, now, first, second);
        Loaded(GetVerificationLevel(store, id, now), GetBlockchainHistory(store, id, now, first, second))
  }
}
