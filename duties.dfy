/**
 * The server's content-kind codes: `ContentKind::from_u32` and `as_u32`. The server and the
 * older server define the same enum and the same `from_u32`; the large duty tables that use
 * the kinds are data and appear here only as parameters.
 */
module Duties {

  /** The 32-bit codes the game uses for content kinds. */
  type U32 = x: nat | x <= 0xFFFF_FFFF

  /** The named kinds, with their declared discriminants, and `Other` for every other code. */
  datatype ContentKind =
    | DutyRoulette | Dungeons | Guildhests | Trials | Raids | PvP | QuestBattles | FATEs
    | TreasureHunt | Levequests | GrandCompany | Companions | BeastTribeQuests
    | OverallCompletion | PlayerCommendation | DisciplesoftheLand | DisciplesoftheHand
    | RetainerVentures | GoldSaucer | DeepDungeons | WondrousTails | CustomDeliveries
    | Eureka | UltimateRaids
    | Other(code: U32)

  /** The 24 codes that have a named variant. */
  predicate Listed(x: nat) {
    (1 <= x <= 19) || x == 21 || x == 24 || x == 25 || x == 26 || x == 28
  }

  function FromU32(x: U32): (k: ContentKind)
    ensures k.Other? <==> !Listed(x)
    ensures k.Other? ==> k.code == x
  {
    match x
    case 1 => DutyRoulette
    case 2 => Dungeons
    case 3 => Guildhests
    case 4 => Trials
    case 5 => Raids
    case 6 => PvP
    case 7 => QuestBattles
    case 8 => FATEs
    case 9 => TreasureHunt
    case 10 => Levequests
    case 11 => GrandCompany
    case 12 => Companions
    case 13 => BeastTribeQuests
    case 14 => OverallCompletion
    case 15 => PlayerCommendation
    case 16 => DisciplesoftheLand
    case 17 => DisciplesoftheHand
    case 18 => RetainerVentures
    case 19 => GoldSaucer
    case 21 => DeepDungeons
    case 24 => WondrousTails
    case 25 => CustomDeliveries
    case 26 => Eureka
    case 28 => UltimateRaids
    case _ => Other(x)
  }

  function AsU32(k: ContentKind): (x: U32)
    ensures !k.Other? ==> Listed(x)
    ensures k.Other? ==> x == k.code
  {
    match k
    case DutyRoulette => 1
    case Dungeons => 2
    case Guildhests => 3
    case Trials => 4
    case Raids => 5
    case PvP => 6
    case QuestBattles => 7
    case FATEs => 8
    case TreasureHunt => 9
    case Levequests => 10
    case GrandCompany => 11
    case Companions => 12
    case BeastTribeQuests => 13
    case OverallCompletion => 14
    case PlayerCommendation => 15
    case DisciplesoftheLand => 16
    case DisciplesoftheHand => 17
    case RetainerVentures => 18
    case GoldSaucer => 19
    case DeepDungeons => 21
    case WondrousTails => 24
    case CustomDeliveries => 25
    case Eureka => 26
    case UltimateRaids => 28
    case Other(x) => x
  }

  /** Decoding then encoding gives every code back. */
  lemma AsFromU32(x: U32)
    ensures AsU32(FromU32(x)) == x
  {
  }

  /** A kind is canonical when it is what `FromU32` produces: `Other` only with an unlisted code. */
  predicate Canonical(k: ContentKind) {
    k.Other? ==> !Listed(k.code)
  }

  /** Encoding then decoding gives back exactly the canonical kinds. */
  lemma FromAsU32(k: ContentKind)
    ensures FromU32(AsU32(k)) == k <==> Canonical(k)
  {
  }

  /** Distinct codes decode to distinct kinds. */
  lemma FromU32Injective(x: U32, y: U32)
    ensures FromU32(x) == FromU32(y) ==> x == y
  {
    AsFromU32(x);
    AsFromU32(y);
  }

  /** Every code `FromU32` produces is canonical. */
  lemma FromU32Canonical(x: U32)
    ensures Canonical(FromU32(x))
  {
  }

  /** The codes the duty tables store as `Other(..)`. */
  const StoredOtherCodes: seq<U32> := [20, 22, 23, 27, 29]

  /** A duty as the tables store it: the localised name is not needed here. */
  datatype DutyInfo<N> = DutyInfo(name: N, highEnd: bool, contentKind: ContentKind)

  /** Every `Other` in the tables uses one of the stored codes. */
  predicate TableKindsStored<N>(duties: map<U32, DutyInfo<N>>) {
    forall id :: id in duties && duties[id].contentKind.Other? ==> duties[id].contentKind.code in StoredOtherCodes
  }

  /** None of the stored `Other` codes is listed, so decoding reproduces every stored kind. */
  lemma TableKindsRoundTrip<N>(duties: map<U32, DutyInfo<N>>)
    requires TableKindsStored(duties)
    ensures forall id :: id in duties ==> FromU32(AsU32(duties[id].contentKind)) == duties[id].contentKind
  {
    forall id | id in duties
      ensures FromU32(AsU32(duties[id].contentKind)) == duties[id].contentKind
    {
      FromAsU32(duties[id].contentKind);
    }
  }
}
