/**
 * The benchmark's record graph (the Go package `models`): a User with a
 * nested Profile (links, preferences with a bool map and privacy flags), a
 * nested Settings (features and an int map) and a dynamically typed
 * metadata map. Go slices and maps may be nil or empty; both are kept
 * apart here so that the codecs' nil-versus-empty collapses can be stated.
 */
module Models {
  import opened GoInts

  /** A Go slice: nil, or a (possibly empty) sequence of elements. */
  datatype Slice<T> = NilSlice | SliceOf(items: seq<T>) {
    /** `len(s)`: a nil slice has length 0. */
    function Len(): nat {
      if NilSlice? then 0 else |items|
    }
    /** The elements, reading a nil slice as empty. */
    function Items(): (s: seq<T>)
      ensures |s| == Len()
    {
      if NilSlice? then [] else items
    }
  }

  /** A Go `map[string]V`: nil, or a (possibly empty) finite map. */
  datatype Dict<V> = NilDict | DictOf(entries: map<string, V>) {
    function Size(): nat {
      if NilDict? then 0 else |entries|
    }
    /** The entries, reading a nil map as empty. */
    function Entries(): (m: map<string, V>)
      ensures |m| == Size()
    {
      if NilDict? then map[] else entries
    }
  }

  /**
   * A value stored in an `interface{}` slot of the metadata map, by its
   * dynamic type. Floating-point values are uninterpreted bit patterns: a float32
   * is held as the bits of its exact float64 widening. Any other dynamic
   * type (int64, slices, structs, ...) is held as its `%v` rendering.
   */
  datatype Dyn =
    | DNil
    | DString(s: string)
    | DInt(i: Int64)
    | DBool(b: bool)
    | DFloat32(wide: bv64)
    | DFloat64(bits: bv64)
    | DOther(text: string)

  datatype Link = Link(platform: string, url: string)

  datatype PrivacySettings = PrivacySettings(profilePublic: bool, emailVisible: bool, showActivity: bool)

  datatype Preferences = Preferences(
    theme: string,
    language: string,
    notifications: Dict<bool>,
    privacy: PrivacySettings)

  datatype Profile = Profile(
    firstName: string,
    lastName: string,
    bio: string,
    avatar: string,
    socialLinks: Slice<Link>,
    preferences: Preferences)

  datatype Settings = Settings(
    language: string,
    timeZone: string,
    features: Slice<string>,
    limits: Dict<Int64>)

  /** `createdAt` is the creation time in nanoseconds since the Unix epoch. */
  datatype User = User(
    id: Int64,
    name: string,
    email: string,
    age: Int64,
    isActive: bool,
    createdAt: Int64,
    tags: Slice<string>,
    profile: Profile,
    settings: Settings,
    metadata: Dict<Dyn>)

  // Go zero values of the structs.
  const ZERO_PRIVACY := PrivacySettings(false, false, false)
  const ZERO_PREFERENCES := Preferences("", "", NilDict, ZERO_PRIVACY)
  const ZERO_PROFILE := Profile("", "", "", "", NilSlice, ZERO_PREFERENCES)
  const ZERO_SETTINGS := Settings("", "", NilSlice, NilDict)
  const ZERO_USER := User(0, "", "", 0, false, 0, NilSlice, ZERO_PROFILE, ZERO_SETTINGS, NilDict)

  // Reading nil collections as empty ones, and nothing else: two values are
  // equal after Settle exactly when they differ at most in nil versus empty.
  function SettleSlice<T>(s: Slice<T>): Slice<T> { SliceOf(s.Items()) }
  function SettleDict<V>(d: Dict<V>): Dict<V> { DictOf(d.Entries()) }

  function SettlePreferences(p: Preferences): Preferences {
    p.(notifications := SettleDict(p.notifications))
  }

  function SettleProfile(p: Profile): Profile {
    p.(socialLinks := SettleSlice(p.socialLinks), preferences := SettlePreferences(p.preferences))
  }

  function SettleSettings(s: Settings): Settings {
    s.(features := SettleSlice(s.features), limits := SettleDict(s.limits))
  }

  function SettleUser(u: User): User {
    u.(tags := SettleSlice(u.tags), profile := SettleProfile(u.profile),
       settings := SettleSettings(u.settings), metadata := SettleDict(u.metadata))
  }
}
