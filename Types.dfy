/**
 * The records exchanged with the backend: the Human Being entity, its
 * create and update requests, and one page of a paginated listing.
 */
module Types {
  import opened Wrappers

  datatype Coordinates = Coordinates(x: int, y: real)

  datatype Car = Car(name: string, cool: bool)

  datatype Mood = Sadness | Longing | Gloom

  datatype WeaponType = Hammer | Pistol | Knife | MachineGun

  /** The string value of each WeaponType member. */
  function WeaponTypeName(w: WeaponType): string {
    match w
    case Hammer => "HAMMER"
    case Pistol => "PISTOL"
    case Knife => "KNIFE"
    case MachineGun => "MACHINE_GUN"
  }

  /** `Object.values(WeaponType)`, in declaration order. */
  function WeaponTypeValues(): (names: seq<string>)
    ensures |names| == 4
    ensures forall w: WeaponType :: WeaponTypeName(w) in names
    ensures forall i, j :: 0 <= i < j < |names| ==> names[i] != names[j]
  {
    [WeaponTypeName(Hammer), WeaponTypeName(Pistol), WeaponTypeName(Knife), WeaponTypeName(MachineGun)]
  }

  /** The member whose string value is `s`, if any: the inverse of WeaponTypeName. */
  function ParseWeaponType(s: string): (w: Option<WeaponType>)
    ensures w.Some? <==> s in WeaponTypeValues()
    ensures w.Some? ==> WeaponTypeName(w.value) == s
  {
    if s == "HAMMER" then Some(Hammer)
    else if s == "PISTOL" then Some(Pistol)
    else if s == "KNIFE" then Some(Knife)
    else if s == "MACHINE_GUN" then Some(MachineGun)
    else None
  }

  lemma WeaponTypeNameRoundTrip(w: WeaponType)
    ensures ParseWeaponType(WeaponTypeName(w)) == Some(w)
  {
  }

  datatype HumanBeing = HumanBeing(
    id: int,
    name: string,
    coordinates: Coordinates,
    creationDate: string,
    realHero: bool,
    hasToothpick: Option<bool>,
    car: Option<Car>,
    mood: Option<Mood>,
    impactSpeed: real,
    soundtrackName: string,
    weaponType: WeaponType)

  /** A record as the client sends it on create: no id, no creation date. */
  datatype HumanBeingCreateRequest = HumanBeingCreateRequest(
    name: string,
    coordinates: Coordinates,
    realHero: bool,
    hasToothpick: Option<bool>,
    car: Option<Car>,
    mood: Option<Mood>,
    impactSpeed: real,
    soundtrackName: string,
    weaponType: WeaponType)

  datatype PaginatedResponse<T> = PaginatedResponse(
    content: seq<T>,
    totalElements: int,
    totalPages: int,
    size: int,
    number: int)

  /** The client-supplied part of a record: everything but id and creationDate. */
  function RequestFields(h: HumanBeing): HumanBeingCreateRequest {
    HumanBeingCreateRequest(h.name, h.coordinates, h.realHero, h.hasToothpick, h.car,
                            h.mood, h.impactSpeed, h.soundtrackName, h.weaponType)
  }

  /** The record the backend stores for a request, once it has assigned id and date. */
  function Stored(r: HumanBeingCreateRequest, id: int, creationDate: string): HumanBeing {
    HumanBeing(id, r.name, r.coordinates, creationDate, r.realHero, r.hasToothpick, r.car,
               r.mood, r.impactSpeed, r.soundtrackName, r.weaponType)
  }

  /** Stored keeps every request field; only the id and the creation date are added. */
  lemma StoredKeepsRequestFields(r: HumanBeingCreateRequest, id: int, creationDate: string)
    ensures RequestFields(Stored(r, id, creationDate)) == r
    ensures Stored(r, id, creationDate).id == id
    ensures Stored(r, id, creationDate).creationDate == creationDate
  {
  }

  /** A record is determined by its request fields together with its id and date. */
  lemma RecordIsRequestPlusIdentity(h: HumanBeing)
    ensures Stored(RequestFields(h), h.id, h.creationDate) == h
  {
  }
}
