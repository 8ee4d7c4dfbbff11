/**
 * The Protocol Buffers serializer's mapping between the record graph and
 * the generated proto messages, without the wire encoding. Nested messages
 * may be nil in the proto structs: the mapping leaves a Profile,
 * Settings, Preferences or PrivacySettings out when the record is empty,
 * and decodes a missing one to the zero record. Metadata values travel as
 * JSON text through a codec the mapping does not define (`Json`), and the
 * two metadata loops stop at the first value the codec rejects.
 */
module ProtobufMapping {
  import opened Wrappers
  import opened GoInts
  import opened Models

  // ---------------------------------------------------------------------
  // The proto messages. A nil-able message field is an Option; repeated and map
  // fields keep Go's nil-versus-empty distinction.

  datatype PbLink = PbLink(platform: string, url: string)

  datatype PbPrivacySettings = PbPrivacySettings(profilePublic: bool, emailVisible: bool, showActivity: bool)

  datatype PbPreferences = PbPreferences(
    theme: string,
    language: string,
    notifications: Dict<bool>,
    privacy: Option<PbPrivacySettings>)

  datatype PbProfile = PbProfile(
    firstName: string,
    lastName: string,
    bio: string,
    avatar: string,
    socialLinks: Slice<PbLink>,
    preferences: Option<PbPreferences>)

  datatype PbSettings = PbSettings(
    language: string,
    timezone: string,
    features: Slice<string>,
    limits: Dict<Int32>)

  /** `createdAt` is the Timestamp message, held as nanoseconds since the Unix epoch. */
  datatype PbUser = PbUser(
    id: Int64,
    name: string,
    email: string,
    age: Int32,
    isActive: bool,
    tags: Slice<string>,
    metadata: Dict<string>,
    createdAt: Option<Int64>,
    profile: Option<PbProfile>,
    settings: Option<PbSettings>)

  /**
   * The JSON codec the metadata values go through (encoding/json's Marshal
   * and Unmarshal into an `interface{}`): either may fail with a message.
   */
  datatype Json = Json(marshal: Dyn -> Result<string, string>, unmarshal: string -> Result<Dyn, string>)

  /** The mapping's own errors wrap the JSON codec's. */
  datatype ConvertError =
    | MarshalMetadata(cause: string)   // a metadata value could not be encoded
    | UnmarshalMetadata(cause: string) // a stored metadata string is not valid JSON

  // ---------------------------------------------------------------------
  // Emptiness: a nested record is sent only when one of these is false.

  predicate IsEmptyPrivacySettings(p: PrivacySettings)
  {
    !p.profilePublic && !p.emailVisible && !p.showActivity
  }

  predicate IsEmptyPreferences(p: Preferences)
  {
    p.theme == "" && p.language == "" && p.notifications.Size() == 0 && IsEmptyPrivacySettings(p.privacy)
  }

  predicate IsEmptyProfile(p: Profile)
  {
    && p.firstName == "" && p.lastName == "" && p.bio == "" && p.avatar == ""
    && p.socialLinks.Len() == 0 && IsEmptyPreferences(p.preferences)
  }

  predicate IsEmptySettings(s: Settings)
  {
    s.language == "" && s.timeZone == "" && s.features.Len() == 0 && s.limits.Size() == 0
  }

  /** Empty privacy settings are exactly the zero struct. */
  lemma EmptyPrivacyIsZero(p: PrivacySettings)
    ensures IsEmptyPrivacySettings(p) <==> p == ZERO_PRIVACY
  {
  }

  /** A map of size 0 read as entries is the empty map. */
  lemma EmptyDict<V>(d: Dict<V>)
    ensures d.Size() == 0 <==> d.Entries() == map[]
  {
    if d.Size() == 0 {
      assert d.Entries().Keys == {};
    }
  }

  /** Empty preferences are the zero struct up to a nil versus empty notification map. */
  lemma EmptyPreferencesIsZero(p: Preferences)
    ensures IsEmptyPreferences(p) <==> SettlePreferences(p) == SettlePreferences(ZERO_PREFERENCES)
  {
    EmptyDict(p.notifications);
    EmptyPrivacyIsZero(p.privacy);
  }

  /** An empty profile is the zero struct up to nil versus empty collections. */
  lemma EmptyProfileIsZero(p: Profile)
    ensures IsEmptyProfile(p) <==> SettleProfile(p) == SettleProfile(ZERO_PROFILE)
  {
    EmptyPreferencesIsZero(p.preferences);
    assert p.socialLinks.Len() == 0 <==> p.socialLinks.Items() == [];
  }

  /** Empty settings are the zero struct up to nil versus empty collections. */
  lemma EmptySettingsIsZero(s: Settings)
    ensures IsEmptySettings(s) <==> SettleSettings(s) == SettleSettings(ZERO_SETTINGS)
  {
    EmptyDict(s.limits);
    assert s.features.Len() == 0 <==> s.features.Items() == [];
  }

  // ---------------------------------------------------------------------
  // Privacy settings and preferences (no loops: plain functions).

  /** The privacy message is left out exactly when the settings are the zero struct. */
  function PrivacyToProto(p: PrivacySettings): (r: Option<PbPrivacySettings>)
    ensures r.None? <==> p == ZERO_PRIVACY
  {
    if p != ZERO_PRIVACY then Some(PbPrivacySettings(p.profilePublic, p.emailVisible, p.showActivity)) else None
  }

  /** A missing privacy message decodes to the zero struct. */
  function PrivacyFromProto(o: Option<PbPrivacySettings>): (r: PrivacySettings)
    ensures o.None? ==> r == ZERO_PRIVACY
  {
    match o
    case None => ZERO_PRIVACY
    case Some(pb) => PrivacySettings(pb.profilePublic, pb.emailVisible, pb.showActivity)
  }

  /** Privacy settings survive the mapping exactly, omitted or not. */
  lemma PrivacyRoundTrip(p: PrivacySettings)
    ensures PrivacyFromProto(PrivacyToProto(p)) == p
  {
  }

  function ConvertPreferencesToProto(p: Preferences): (r: PbPreferences)
    ensures r.notifications == p.notifications
    ensures r.privacy.None? <==> IsEmptyPrivacySettings(p.privacy)
  {
    EmptyPrivacyIsZero(p.privacy);
    PbPreferences(p.theme, p.language, p.notifications, PrivacyToProto(p.privacy))
  }

  function ConvertPreferencesFromProto(pb: PbPreferences): (r: Preferences)
    ensures r.notifications == pb.notifications
    ensures pb.privacy.None? ==> r.privacy == ZERO_PRIVACY
  {
    Preferences(pb.theme, pb.language, pb.notifications, PrivacyFromProto(pb.privacy))
  }

  /** Preferences survive the mapping exactly, the notification map included. */
  lemma PreferencesRoundTrip(p: Preferences)
    ensures ConvertPreferencesFromProto(ConvertPreferencesToProto(p)) == p
  {
    PrivacyRoundTrip(p.privacy);
  }

  // ---------------------------------------------------------------------
  // Profile: the social links are copied one by one, and only when there
  // are some; otherwise the field stays nil.

  function LinkToProto(l: Link): PbLink { PbLink(l.platform, l.url) }
  function LinkFromProto(pb: PbLink): Link { Link(pb.platform, pb.url) }

  /** The proto links: nil when there are none, else one message per link, in order. */
  function EncodeLinks(links: Slice<Link>): (r: Slice<PbLink>)
    ensures r.Len() == links.Len() && (r.Len() == 0 ==> r.NilSlice?)
    ensures forall i | 0 <= i < r.Len() :: r.Items()[i] == LinkToProto(links.Items()[i])
  {
    if links.Len() > 0 then SliceOf(seq(links.Len(), i requires 0 <= i < links.Len() => LinkToProto(links.Items()[i])))
    else NilSlice
  }

  /** The decoded links: nil when there are none, else one link per message, in order. */
  function DecodeLinks(links: Slice<PbLink>): (r: Slice<Link>)
    ensures r.Len() == links.Len() && (r.Len() == 0 ==> r.NilSlice?)
    ensures forall i | 0 <= i < r.Len() :: r.Items()[i] == LinkFromProto(links.Items()[i])
  {
    if links.Len() > 0 then SliceOf(seq(links.Len(), i requires 0 <= i < links.Len() => LinkFromProto(links.Items()[i])))
    else NilSlice
  }

  /** Links survive the mapping, except that an empty non-nil slice comes back nil. */
  lemma LinksRoundTrip(links: Slice<Link>)
    ensures DecodeLinks(EncodeLinks(links)) == if links.Len() > 0 then links else NilSlice
  {
    if links.Len() > 0 {
      var r := DecodeLinks(EncodeLinks(links));
      assert r.Items() == links.Items();
    }
  }

  /** The proto profile: preferences are attached only when not empty. */
  function EncodeProfile(p: Profile): PbProfile
  {
    PbProfile(p.firstName, p.lastName, p.bio, p.avatar, EncodeLinks(p.socialLinks),
      if IsEmptyPreferences(p.preferences) then None else Some(ConvertPreferencesToProto(p.preferences)))
  }

  /** The decoded profile: missing preferences decode to the zero struct. */
  function DecodeProfile(pb: PbProfile): Profile
  {
    Profile(pb.firstName, pb.lastName, pb.bio, pb.avatar, DecodeLinks(pb.socialLinks),
      match pb.preferences
      case None => ZERO_PREFERENCES
      case Some(q) => ConvertPreferencesFromProto(q))
  }

  method ConvertProfileToProto(profile: Profile) returns (r: PbProfile)
    ensures r == EncodeProfile(profile)
  {
    r := PbProfile(profile.firstName, profile.lastName, profile.bio, profile.avatar, NilSlice, None);
    if profile.socialLinks.Len() > 0 {
      var links := profile.socialLinks.Items();
      var out := seq(|links|, _ => PbLink("", ""));
      for i := 0 to |links|
        invariant |out| == |links|
        invariant forall j | 0 <= j < i :: out[j] == LinkToProto(links[j])
      {
        out := out[i := PbLink(links[i].platform, links[i].url)];
      }
      r := r.(socialLinks := SliceOf(out));
    }
    if !IsEmptyPreferences(profile.preferences) {
      var preferences := ConvertPreferencesToProto(profile.preferences);
      r := r.(preferences := Some(preferences));
    }
  }

  method ConvertProfileFromProto(pb: PbProfile) returns (r: Profile)
    ensures r == DecodeProfile(pb)
  {
    r := Profile(pb.firstName, pb.lastName, pb.bio, pb.avatar, NilSlice, ZERO_PREFERENCES);
    if pb.socialLinks.Len() > 0 {
      var links := pb.socialLinks.Items();
      var out := seq(|links|, _ => Link("", ""));
      for i := 0 to |links|
        invariant |out| == |links|
        invariant forall j | 0 <= j < i :: out[j] == LinkFromProto(links[j])
      {
        out := out[i := Link(links[i].platform, links[i].url)];
      }
      r := r.(socialLinks := SliceOf(out));
    }
    if pb.preferences.Some? {
      var preferences := ConvertPreferencesFromProto(pb.preferences.value);
      r := r.(preferences := preferences);
    }
  }

  /** What a profile becomes after the mapping both ways. */
  function CollapsePreferences(p: Preferences): Preferences
  {
    if IsEmptyPreferences(p) then ZERO_PREFERENCES else p
  }

  function CollapseProfile(p: Profile): Profile
  {
    if IsEmptyProfile(p) then ZERO_PROFILE
    else p.(socialLinks := if p.socialLinks.Len() > 0 then p.socialLinks else NilSlice,
            preferences := CollapsePreferences(p.preferences))
  }

  /** A non-empty profile decodes to its collapse: empty links and preferences come back as zero values. */
  lemma ProfileRoundTrip(p: Profile)
    requires !IsEmptyProfile(p)
    ensures DecodeProfile(EncodeProfile(p)) == CollapseProfile(p)
  {
    LinksRoundTrip(p.socialLinks);
    PreferencesRoundTrip(p.preferences);
  }

  /** The collapse loses nothing but the distinction between nil and empty collections. */
  lemma CollapseProfileSettles(p: Profile)
    ensures SettleProfile(CollapseProfile(p)) == SettleProfile(p)
  {
    EmptyProfileIsZero(p);
    EmptyPreferencesIsZero(p.preferences);
  }

  // ---------------------------------------------------------------------
  // Settings: the limits are converted int -> int32 -> int entry by entry.

  /** The proto limits: the same keys, each value truncated to int32. */
  function EncodeLimits(limits: Dict<Int64>): (r: map<string, Int32>)
    ensures r.Keys == limits.Entries().Keys
    ensures forall k | k in r :: r[k] == Wrap32(limits.Entries()[k])
  {
    var m := limits.Entries();
    map k | k in m :: Wrap32(m[k])
  }

  /** The decoded limits: the same keys and values, widened. */
  function DecodeLimits(limits: Dict<Int32>): (r: map<string, Int64>)
    ensures r.Keys == limits.Entries().Keys
    ensures forall k | k in r :: r[k] == limits.Entries()[k]
  {
    var m := limits.Entries();
    map k | k in m :: m[k] as Int64
  }

  /** The proto settings: always a (non-nil) limits map. */
  function EncodeSettings(s: Settings): PbSettings
  {
    PbSettings(s.language, s.timeZone, s.features, DictOf(EncodeLimits(s.limits)))
  }

  /** The decoded settings: always a (non-nil) limits map. */
  function DecodeSettings(pb: PbSettings): Settings
  {
    Settings(pb.language, pb.timezone, pb.features, DictOf(DecodeLimits(pb.limits)))
  }

  method ConvertSettingsToProto(settings: Settings) returns (r: PbSettings)
    ensures r == EncodeSettings(settings)
  {
    var m := settings.limits.Entries();
    var limits: map<string, Int32> := map[];
    var rest := m.Keys;
    while rest != {}
      invariant rest <= m.Keys
      invariant limits.Keys == m.Keys - rest
      invariant forall k | k in limits :: limits[k] == Wrap32(m[k])
      decreases rest
    {
      var k :| k in rest;
      limits := limits[k := Wrap32(m[k])];
      rest := rest - {k};
    }
    assert limits == EncodeLimits(settings.limits);
    r := PbSettings(settings.language, settings.timeZone, settings.features, DictOf(limits));
  }

  method ConvertSettingsFromProto(pb: PbSettings) returns (r: Settings)
    ensures r == DecodeSettings(pb)
  {
    var m := pb.limits.Entries();
    var limits: map<string, Int64> := map[];
    var rest := m.Keys;
    while rest != {}
      invariant rest <= m.Keys
      invariant limits.Keys == m.Keys - rest
      invariant forall k | k in limits :: limits[k] == m[k]
      decreases rest
    {
      var k :| k in rest;
      limits := limits[k := m[k]];
      rest := rest - {k};
    }
    assert limits == DecodeLimits(pb.limits);
    r := Settings(pb.language, pb.timezone, pb.features, DictOf(limits));
  }

  function CollapseSettings(s: Settings): Settings
  {
    if IsEmptySettings(s) then ZERO_SETTINGS
    else s.(limits := DictOf(map k | k in s.limits.Entries() :: Wrap32(s.limits.Entries()[k]) as Int64))
  }

  /** Non-empty settings decode to their collapse: limits truncated to int32, never nil. */
  lemma SettingsRoundTrip(s: Settings)
    requires !IsEmptySettings(s)
    ensures DecodeSettings(EncodeSettings(s)) == CollapseSettings(s)
  {
    var pb := EncodeSettings(s);
    assert DecodeLimits(pb.limits) == CollapseSettings(s).limits.entries;
  }

  /** With every limit within int32, the collapse loses only nil versus empty. */
  lemma CollapseSettingsSettles(s: Settings)
    requires forall k | k in s.limits.Entries() :: InInt32(s.limits.Entries()[k])
    ensures SettleSettings(CollapseSettings(s)) == SettleSettings(s)
  {
    EmptySettingsIsZero(s);
    if !IsEmptySettings(s) {
      assert CollapseSettings(s).limits.entries == s.limits.Entries();
    }
  }

  // ---------------------------------------------------------------------
  // Metadata: one JSON text per value. Go ranges over the map in an
  // unspecified order, so when several values fail, any of their errors
  // may be the one returned.

  ghost predicate Encodable(json: Json, m: map<string, Dyn>)
  {
    forall k | k in m :: json.marshal(m[k]).Success?
  }

  ghost function EncodeMetadata(json: Json, m: map<string, Dyn>): (r: map<string, string>)
    requires Encodable(json, m)
    ensures r.Keys == m.Keys
  {
    map k | k in m :: json.marshal(m[k]).value
  }

  /** `e` is the wrapped error of some value the codec fails to encode. */
  ghost predicate MarshalFailure(json: Json, m: map<string, Dyn>, e: ConvertError)
  {
    exists k | k in m :: json.marshal(m[k]).Failure? && e == MarshalMetadata(json.marshal(m[k]).error)
  }

  ghost predicate Decodable(json: Json, m: map<string, string>)
  {
    forall k | k in m :: json.unmarshal(m[k]).Success?
  }

  ghost function DecodeMetadata(json: Json, m: map<string, string>): (r: map<string, Dyn>)
    requires Decodable(json, m)
    ensures r.Keys == m.Keys
  {
    map k | k in m :: json.unmarshal(m[k]).value
  }

  ghost predicate UnmarshalFailure(json: Json, m: map<string, string>, e: ConvertError)
  {
    exists k | k in m :: json.unmarshal(m[k]).Failure? && e == UnmarshalMetadata(json.unmarshal(m[k]).error)
  }

  method MetadataToProto(json: Json, metadata: Dict<Dyn>) returns (r: Result<map<string, string>, ConvertError>)
    ensures r.Success? <==> Encodable(json, metadata.Entries())
    ensures r.Success? ==> r.value == EncodeMetadata(json, metadata.Entries())
    ensures r.Failure? ==> MarshalFailure(json, metadata.Entries(), r.error)
  {
    var m := metadata.Entries();
    var out: map<string, string> := map[];
    var rest := m.Keys;
    while rest != {}
      invariant rest <= m.Keys
      invariant out.Keys == m.Keys - rest
      invariant forall k | k in out :: json.marshal(m[k]) == Success(out[k])
      decreases rest
    {
      var k :| k in rest;
      var text := json.marshal(m[k]);
      if text.Failure? {
        return Failure(MarshalMetadata(text.error));
      }
      out := out[k := text.value];
      rest := rest - {k};
    }
    assert out == EncodeMetadata(json, m);
    return Success(out);
  }

  method MetadataFromProto(json: Json, metadata: Dict<string>) returns (r: Result<map<string, Dyn>, ConvertError>)
    ensures r.Success? <==> Decodable(json, metadata.Entries())
    ensures r.Success? ==> r.value == DecodeMetadata(json, metadata.Entries())
    ensures r.Failure? ==> UnmarshalFailure(json, metadata.Entries(), r.error)
  {
    var m := metadata.Entries();
    var out: map<string, Dyn> := map[];
    var rest := m.Keys;
    while rest != {}
      invariant rest <= m.Keys
      invariant out.Keys == m.Keys - rest
      invariant forall k | k in out :: json.unmarshal(m[k]) == Success(out[k])
      decreases rest
    {
      var k :| k in rest;
      var value := json.unmarshal(m[k]);
      if value.Failure? {
        return Failure(UnmarshalMetadata(value.error));
      }
      out := out[k := value.value];
      rest := rest - {k};
    }
    assert out == DecodeMetadata(json, m);
    return Success(out);
  }

  /** Every value the codec encodes, it decodes back to itself. */
  ghost predicate JsonRoundTrips(json: Json, m: map<string, Dyn>)
  {
    forall k | k in m :: json.marshal(m[k]).Success? && json.unmarshal(json.marshal(m[k]).value) == Success(m[k])
  }

  /** Metadata keeps its key set, and each value comes back when the codec round-trips it. */
  lemma MetadataRoundTrip(json: Json, m: map<string, Dyn>)
    requires JsonRoundTrips(json, m)
    ensures Encodable(json, m) && Decodable(json, EncodeMetadata(json, m))
    ensures DecodeMetadata(json, EncodeMetadata(json, m)) == m
  {
    var texts := EncodeMetadata(json, m);
    assert Decodable(json, texts) by {
      forall k | k in texts ensures json.unmarshal(texts[k]).Success? {
        assert texts[k] == json.marshal(m[k]).value;
      }
    }
    var back := DecodeMetadata(json, texts);
    forall k | k in m ensures back[k] == m[k] {
      assert texts[k] == json.marshal(m[k]).value;
    }
  }

  // ---------------------------------------------------------------------
  // User.

  /** The proto user: age truncated to int32, metadata as JSON, empty nested records left out. */
  ghost function EncodeUser(json: Json, u: User): PbUser
    requires Encodable(json, u.metadata.Entries())
  {
    PbUser(u.id, u.name, u.email, Wrap32(u.age), u.isActive, u.tags,
      DictOf(EncodeMetadata(json, u.metadata.Entries())), Some(u.createdAt),
      if IsEmptyProfile(u.profile) then None else Some(EncodeProfile(u.profile)),
      if IsEmptySettings(u.settings) then None else Some(EncodeSettings(u.settings)))
  }

  /** The decoded user: missing nested records and a missing timestamp decode to zero values. */
  ghost function DecodeUser(json: Json, pb: PbUser): (r: User)
    requires Decodable(json, pb.metadata.Entries())
    ensures pb.createdAt.None? ==> r.createdAt == ZERO_USER.createdAt
    ensures pb.profile.None? ==> r.profile == ZERO_PROFILE
    ensures pb.settings.None? ==> r.settings == ZERO_SETTINGS
  {
    User(pb.id, pb.name, pb.email, pb.age as Int64, pb.isActive,
      match pb.createdAt
      case None => ZERO_USER.createdAt
      case Some(t) => t,
      pb.tags,
      match pb.profile
      case None => ZERO_PROFILE
      case Some(p) => DecodeProfile(p),
      match pb.settings
      case None => ZERO_SETTINGS
      case Some(s) => DecodeSettings(s),
      DictOf(DecodeMetadata(json, pb.metadata.Entries())))
  }

  method ConvertUserToProto(json: Json, user: User) returns (r: Result<PbUser, ConvertError>)
    ensures r.Success? <==> Encodable(json, user.metadata.Entries())
    ensures r.Success? ==> r.value == EncodeUser(json, user)
    ensures r.Failure? ==> MarshalFailure(json, user.metadata.Entries(), r.error)
  {
    var metadata := MetadataToProto(json, user.metadata);
    if metadata.Failure? {
      return Failure(metadata.error);
    }
    var pbUser := PbUser(user.id, user.name, user.email, Wrap32(user.age), user.isActive, user.tags,
      DictOf(metadata.value), Some(user.createdAt), None, None);
    if !IsEmptyProfile(user.profile) {
      var profile := ConvertProfileToProto(user.profile);
      pbUser := pbUser.(profile := Some(profile));
    }
    if !IsEmptySettings(user.settings) {
      var settings := ConvertSettingsToProto(user.settings);
      pbUser := pbUser.(settings := Some(settings));
    }
    return Success(pbUser);
  }

  method ConvertUserFromProto(json: Json, pb: PbUser) returns (r: Result<User, ConvertError>)
    ensures r.Success? <==> Decodable(json, pb.metadata.Entries())
    ensures r.Success? ==> r.value == DecodeUser(json, pb)
    ensures r.Failure? ==> UnmarshalFailure(json, pb.metadata.Entries(), r.error)
  {
    var createdAt: Int64 := ZERO_USER.createdAt;
    if pb.createdAt.Some? {
      createdAt := pb.createdAt.value;
    }
    var metadata := MetadataFromProto(json, pb.metadata);
    if metadata.Failure? {
      return Failure(metadata.error);
    }
    var user := User(pb.id, pb.name, pb.email, pb.age as Int64, pb.isActive, createdAt, pb.tags,
      ZERO_PROFILE, ZERO_SETTINGS, DictOf(metadata.value));
    if pb.profile.Some? {
      var profile := ConvertProfileFromProto(pb.profile.value);
      user := user.(profile := profile);
    }
    if pb.settings.Some? {
      var settings := ConvertSettingsFromProto(pb.settings.value);
      user := user.(settings := settings);
    }
    return Success(user);
  }

  /** What a user becomes after the mapping both ways (given a codec that round-trips its metadata). */
  function CollapseUser(u: User): User
  {
    u.(age := Wrap32(u.age),
       profile := CollapseProfile(u.profile),
       settings := CollapseSettings(u.settings),
       metadata := DictOf(u.metadata.Entries()))
  }

  /** The mapping both ways yields the collapsed user. */
  lemma UserRoundTrip(json: Json, u: User)
    requires JsonRoundTrips(json, u.metadata.Entries())
    ensures Encodable(json, u.metadata.Entries())
    ensures Decodable(json, EncodeUser(json, u).metadata.Entries())
    ensures DecodeUser(json, EncodeUser(json, u)) == CollapseUser(u)
  {
    MetadataRoundTrip(json, u.metadata.Entries());
    var pb := EncodeUser(json, u);
    if !IsEmptyProfile(u.profile) {
      ProfileRoundTrip(u.profile);
    }
    if !IsEmptySettings(u.settings) {
      SettingsRoundTrip(u.settings);
    }
  }

  /** Users the mapping both ways leaves unchanged. */
  ghost predicate Representable(u: User)
  {
    && InInt32(u.age)
    && u.metadata.DictOf?
    && (IsEmptyProfile(u.profile) ==> u.profile == ZERO_PROFILE)
    && (!IsEmptyProfile(u.profile) ==> !u.profile.socialLinks.SliceOf? || |u.profile.socialLinks.items| > 0)
    && (IsEmptyPreferences(u.profile.preferences) ==> u.profile.preferences == ZERO_PREFERENCES)
    && (IsEmptySettings(u.settings) ==> u.settings == ZERO_SETTINGS)
    && (!IsEmptySettings(u.settings) ==> u.settings.limits.DictOf?)
    && (forall k | k in u.settings.limits.Entries() :: InInt32(u.settings.limits.Entries()[k]))
  }

  /** The collapse is the identity exactly on representable users. */
  lemma CollapseUserExact(u: User)
    ensures CollapseUser(u) == u <==> Representable(u)
  {
    var c := CollapseUser(u);
    if c == u {
      assert c.age == u.age;
      assert c.settings == u.settings;
      if !IsEmptySettings(u.settings) {
        forall k | k in u.settings.limits.Entries() ensures InInt32(u.settings.limits.Entries()[k]) {
          assert c.settings.limits.entries[k] == u.settings.limits.entries[k];
        }
      }
      assert c.profile == u.profile;
      if !IsEmptyProfile(u.profile) {
        assert c.profile.preferences == u.profile.preferences;
      }
    }
    if Representable(u) {
      if !IsEmptySettings(u.settings) {
        assert c.settings.limits.entries == u.settings.limits.entries;
      }
      if !IsEmptyProfile(u.profile) {
        assert c.profile.socialLinks == u.profile.socialLinks;
      }
    }
  }

  /**
   * With the age and every limit within int32, the collapse changes nothing
   * but nil versus empty collections.
   */
  lemma CollapseUserSettles(u: User)
    requires InInt32(u.age)
    requires forall k | k in u.settings.limits.Entries() :: InInt32(u.settings.limits.Entries()[k])
    ensures SettleUser(CollapseUser(u)) == SettleUser(u)
  {
    CollapseProfileSettles(u.profile);
    CollapseSettingsSettles(u.settings);
  }

  // ---------------------------------------------------------------------
  // User lists: convert element by element, stop at the first error and
  // return no partial list.

  method MarshalUsers(json: Json, users: Slice<User>) returns (r: Result<seq<PbUser>, ConvertError>)
    ensures r.Success? <==> forall i | 0 <= i < users.Len() :: Encodable(json, users.Items()[i].metadata.Entries())
    ensures r.Success? ==> |r.value| == users.Len()
    ensures r.Success? ==> forall i | 0 <= i < users.Len() :: r.value[i] == EncodeUser(json, users.Items()[i])
    ensures r.Failure? ==> exists i | 0 <= i < users.Len() ::
      && (forall j | 0 <= j < i :: Encodable(json, users.Items()[j].metadata.Entries()))
      && MarshalFailure(json, users.Items()[i].metadata.Entries(), r.error)
  {
    var items := users.Items();
    var out := seq(|items|, _ => PbUser(0, "", "", 0, false, NilSlice, NilDict, None, None, None));
    for i := 0 to |items|
      invariant |out| == |items|
      invariant forall j | 0 <= j < i :: Encodable(json, items[j].metadata.Entries()) && out[j] == EncodeUser(json, items[j])
    {
      var pbUser := ConvertUserToProto(json, items[i]);
      if pbUser.Failure? {
        return Failure(pbUser.error);
      }
      out := out[i := pbUser.value];
    }
    return Success(out);
  }

  method UnmarshalUsers(json: Json, pbUsers: seq<PbUser>) returns (r: Result<Slice<User>, ConvertError>)
    ensures r.Success? <==> forall i | 0 <= i < |pbUsers| :: Decodable(json, pbUsers[i].metadata.Entries())
    ensures r.Success? ==> r.value.SliceOf? && |r.value.items| == |pbUsers|
    ensures r.Success? ==> forall i | 0 <= i < |pbUsers| :: r.value.items[i] == DecodeUser(json, pbUsers[i])
    ensures r.Failure? ==> exists i | 0 <= i < |pbUsers| ::
      && (forall j | 0 <= j < i :: Decodable(json, pbUsers[j].metadata.Entries()))
      && UnmarshalFailure(json, pbUsers[i].metadata.Entries(), r.error)
  {
    var out := seq(|pbUsers|, _ => ZERO_USER);
    for i := 0 to |pbUsers|
      invariant |out| == |pbUsers|
      invariant forall j | 0 <= j < i :: Decodable(json, pbUsers[j].metadata.Entries()) && out[j] == DecodeUser(json, pbUsers[j])
    {
      var user := ConvertUserFromProto(json, pbUsers[i]);
      if user.Failure? {
        return Failure(user.error);
      }
      out := out[i := user.value];
    }
    return Success(SliceOf(out));
  }
}
