/**
 * The FlatBuffers schema of the benchmark (slot numbers in the order the
 * encoder adds the fields), what the decoder reads from a buffer, and what
 * a round trip through the codec gives back.
 */
module FlatLayout {
  import opened GoInts
  import opened Models
  import opened EntryMaps
  import opened FlatBuilder
  import TaggedValue

  // UserList
  const USER_LIST_USERS: nat := 0
  // User
  const USER_ID: nat := 0
  const USER_NAME: nat := 1
  const USER_EMAIL: nat := 2
  const USER_AGE: nat := 3
  const USER_IS_ACTIVE: nat := 4
  const USER_PROFILE: nat := 5
  const USER_SETTINGS: nat := 6
  const USER_TAGS: nat := 7
  const USER_METADATA: nat := 8
  const USER_CREATED_AT: nat := 9
  // Profile
  const PROFILE_FIRST_NAME: nat := 0
  const PROFILE_LAST_NAME: nat := 1
  const PROFILE_BIO: nat := 2
  const PROFILE_AVATAR: nat := 3
  const PROFILE_SOCIAL_LINKS: nat := 4
  const PROFILE_PREFERENCES: nat := 5
  // Link
  const LINK_PLATFORM: nat := 0
  const LINK_URL: nat := 1
  // Preferences
  const PREFERENCES_THEME: nat := 0
  const PREFERENCES_LANGUAGE: nat := 1
  const PREFERENCES_NOTIFICATIONS: nat := 2
  const PREFERENCES_PRIVACY: nat := 3
  // NotificationSetting
  const NOTIFICATION_KEY: nat := 0
  const NOTIFICATION_VALUE: nat := 1
  // PrivacySettings
  const PRIVACY_PROFILE_PUBLIC: nat := 0
  const PRIVACY_EMAIL_VISIBLE: nat := 1
  const PRIVACY_SHOW_ACTIVITY: nat := 2
  // Settings
  const SETTINGS_LANGUAGE: nat := 0
  const SETTINGS_TIMEZONE: nat := 1
  const SETTINGS_FEATURES: nat := 2
  const SETTINGS_LIMITS: nat := 3
  // LimitSetting
  const LIMIT_KEY: nat := 0
  const LIMIT_VALUE: nat := 1
  // MetadataEntry
  const ENTRY_KEY: nat := 0
  const ENTRY_STRING_VALUE: nat := 1
  const ENTRY_VALUE_TYPE: nat := 2
  const ENTRY_INT_VALUE: nat := 3
  const ENTRY_BOOL_VALUE: nat := 4
  const ENTRY_FLOAT_VALUE: nat := 5

  // ---------------------------------------------------------------------
  // What the decoder reads.

  function StringSeq(nodes: seq<Node>, elems: seq<Offset>): (r: seq<string>)
    ensures |r| == |elems|
  {
    seq(|elems|, i requires 0 <= i < |elems| => StringAt(nodes, elems[i]))
  }

  function LinkOf(nodes: seq<Node>, off: Offset): Link
  {
    Link(StringField(nodes, off, LINK_PLATFORM), StringField(nodes, off, LINK_URL))
  }

  function LinkSeq(nodes: seq<Node>, elems: seq<Offset>): (r: seq<Link>)
    ensures |r| == |elems|
  {
    seq(|elems|, i requires 0 <= i < |elems| => LinkOf(nodes, elems[i]))
  }

  function NotificationOf(nodes: seq<Node>, off: Offset): (string, bool)
  {
    (StringField(nodes, off, NOTIFICATION_KEY), BoolField(nodes, off, NOTIFICATION_VALUE))
  }

  function NotificationSeq(nodes: seq<Node>, elems: seq<Offset>): (r: seq<(string, bool)>)
    ensures |r| == |elems|
  {
    seq(|elems|, i requires 0 <= i < |elems| => NotificationOf(nodes, elems[i]))
  }

  function LimitOf(nodes: seq<Node>, off: Offset): (string, Int64)
  {
    (StringField(nodes, off, LIMIT_KEY), Int32Field(nodes, off, LIMIT_VALUE))
  }

  function LimitSeq(nodes: seq<Node>, elems: seq<Offset>): (r: seq<(string, Int64)>)
    ensures |r| == |elems|
  {
    seq(|elems|, i requires 0 <= i < |elems| => LimitOf(nodes, elems[i]))
  }

  function SlotsOf(nodes: seq<Node>, off: Offset): TaggedValue.Slots
  {
    TaggedValue.Slots(
      IntField(nodes, off, ENTRY_VALUE_TYPE),
      StringField(nodes, off, ENTRY_STRING_VALUE),
      Int32Field(nodes, off, ENTRY_INT_VALUE),
      BoolField(nodes, off, ENTRY_BOOL_VALUE),
      FloatField(nodes, off, ENTRY_FLOAT_VALUE))
  }

  function EntryOf(nodes: seq<Node>, off: Offset): (string, Dyn)
  {
    (StringField(nodes, off, ENTRY_KEY), TaggedValue.Decode(SlotsOf(nodes, off)))
  }

  function EntrySeq(nodes: seq<Node>, elems: seq<Offset>): (r: seq<(string, Dyn)>)
    ensures |r| == |elems|
  {
    seq(|elems|, i requires 0 <= i < |elems| => EntryOf(nodes, elems[i]))
  }

  function PrivacyOf(nodes: seq<Node>, off: Offset): PrivacySettings
  {
    PrivacySettings(
      BoolField(nodes, off, PRIVACY_PROFILE_PUBLIC),
      BoolField(nodes, off, PRIVACY_EMAIL_VISIBLE),
      BoolField(nodes, off, PRIVACY_SHOW_ACTIVITY))
  }

  /** An absent Privacy table leaves the zero value. */
  function PreferencesOf(nodes: seq<Node>, off: Offset): (p: Preferences)
    ensures p.notifications.DictOf?
  {
    var privacy := RefField(nodes, off, PREFERENCES_PRIVACY);
    Preferences(
      StringField(nodes, off, PREFERENCES_THEME),
      StringField(nodes, off, PREFERENCES_LANGUAGE),
      DictOf(MapOf(NotificationSeq(nodes, VectorField(nodes, off, PREFERENCES_NOTIFICATIONS)))),
      if privacy != 0 then PrivacyOf(nodes, privacy) else ZERO_PRIVACY)
  }

  /** An absent Preferences table leaves the zero value. */
  function ProfileOf(nodes: seq<Node>, off: Offset): (p: Profile)
    ensures p.socialLinks.SliceOf?
    ensures RefField(nodes, off, PROFILE_PREFERENCES) != 0 ==> p.preferences.notifications.DictOf?
  {
    var prefs := RefField(nodes, off, PROFILE_PREFERENCES);
    Profile(
      StringField(nodes, off, PROFILE_FIRST_NAME),
      StringField(nodes, off, PROFILE_LAST_NAME),
      StringField(nodes, off, PROFILE_BIO),
      StringField(nodes, off, PROFILE_AVATAR),
      SliceOf(LinkSeq(nodes, VectorField(nodes, off, PROFILE_SOCIAL_LINKS))),
      if prefs != 0 then PreferencesOf(nodes, prefs) else ZERO_PREFERENCES)
  }

  function SettingsOf(nodes: seq<Node>, off: Offset): (s: Settings)
    ensures s.features.SliceOf? && s.limits.DictOf?
  {
    Settings(
      StringField(nodes, off, SETTINGS_LANGUAGE),
      StringField(nodes, off, SETTINGS_TIMEZONE),
      SliceOf(StringSeq(nodes, VectorField(nodes, off, SETTINGS_FEATURES))),
      DictOf(MapOf(LimitSeq(nodes, VectorField(nodes, off, SETTINGS_LIMITS)))))
  }

  /**
   * The User the decoder builds from the table at `off`. It never holds a
   * nil tag list or metadata map, and neither do the nested tables that are
   * present; absent nested tables leave zero values.
   */
  function UserOf(nodes: seq<Node>, off: Offset): (u: User)
    ensures u.tags.SliceOf? && u.metadata.DictOf?
    ensures |u.tags.items| == VectorLength(nodes, off, USER_TAGS)
    ensures RefField(nodes, off, USER_PROFILE) != 0 ==> u.profile.socialLinks.SliceOf?
    ensures RefField(nodes, off, USER_SETTINGS) != 0 ==> u.settings.features.SliceOf? && u.settings.limits.DictOf?
    ensures RefField(nodes, off, USER_PROFILE) == 0 ==> u.profile == ZERO_PROFILE
    ensures RefField(nodes, off, USER_SETTINGS) == 0 ==> u.settings == ZERO_SETTINGS
  {
    var profile := RefField(nodes, off, USER_PROFILE);
    var settings := RefField(nodes, off, USER_SETTINGS);
    User(
      Int64Field(nodes, off, USER_ID),
      StringField(nodes, off, USER_NAME),
      StringField(nodes, off, USER_EMAIL),
      Int32Field(nodes, off, USER_AGE),
      BoolField(nodes, off, USER_IS_ACTIVE),
      Int64Field(nodes, off, USER_CREATED_AT),
      SliceOf(StringSeq(nodes, VectorField(nodes, off, USER_TAGS))),
      if profile != 0 then ProfileOf(nodes, profile) else ZERO_PROFILE,
      if settings != 0 then SettingsOf(nodes, settings) else ZERO_SETTINGS,
      DictOf(MapOf(EntrySeq(nodes, VectorField(nodes, off, USER_METADATA)))))
  }

  function UserSeq(nodes: seq<Node>, elems: seq<Offset>): (r: seq<User>)
    ensures |r| == |elems|
  {
    seq(|elems|, i requires 0 <= i < |elems| => UserOf(nodes, elems[i]))
  }

  /** The users of a finished UserList buffer, in vector order; an absent vector reads as none. */
  function UsersOf(buf: Buffer): (r: seq<User>)
    ensures |r| == VectorLength(buf.nodes, buf.root, USER_LIST_USERS)
  {
    UserSeq(buf.nodes, VectorField(buf.nodes, buf.root, USER_LIST_USERS))
  }

  // ---------------------------------------------------------------------
  // What a round trip gives back: nil collections come back empty, ages
  // and limits pass through int32, metadata values collapse per tag.

  function CollapsePreferences(p: Preferences): Preferences
  {
    p.(notifications := DictOf(p.notifications.Entries()))
  }

  function CollapseProfile(p: Profile): Profile
  {
    p.(socialLinks := SliceOf(p.socialLinks.Items()), preferences := CollapsePreferences(p.preferences))
  }

  function CollapseLimits(limits: Dict<Int64>): map<string, Int64>
  {
    var m := limits.Entries();
    map k | k in m :: Wrap32(m[k]) as Int64
  }

  function CollapseSettings(s: Settings): Settings
  {
    s.(features := SliceOf(s.features.Items()), limits := DictOf(CollapseLimits(s.limits)))
  }

  function CollapseMetadata(metadata: Dict<Dyn>): map<string, Dyn>
  {
    var m := metadata.Entries();
    map k | k in m :: TaggedValue.Collapse(m[k])
  }

  function CollapseUser(u: User): User
  {
    u.(age := Wrap32(u.age),
       tags := SliceOf(u.tags.Items()),
       profile := CollapseProfile(u.profile),
       settings := CollapseSettings(u.settings),
       metadata := DictOf(CollapseMetadata(u.metadata)))
  }

  /** Users that survive a round trip unchanged. */
  ghost predicate Representable(u: User)
  {
    && InInt32(u.age)
    && u.tags.SliceOf?
    && u.profile.socialLinks.SliceOf?
    && u.profile.preferences.notifications.DictOf?
    && u.settings.features.SliceOf?
    && u.settings.limits.DictOf?
    && (forall k | k in u.settings.limits.entries :: InInt32(u.settings.limits.entries[k]))
    && u.metadata.DictOf?
    && (forall k | k in u.metadata.entries :: TaggedValue.Representable(u.metadata.entries[k]))
  }

  /**
   * A user round-trips exactly if and only if it is representable: all
   * collections non-nil, age and limits within int32, metadata values that
   * survive their tag's round trip.
   */
  lemma CollapseUserExact(u: User)
    ensures CollapseUser(u) == u <==> Representable(u)
  {
    if CollapseUser(u) == u {
      forall k | k in u.settings.limits.entries ensures InInt32(u.settings.limits.entries[k]) {
        assert CollapseLimits(u.settings.limits)[k] == u.settings.limits.entries[k];
      }
      forall k | k in u.metadata.entries ensures TaggedValue.Representable(u.metadata.entries[k]) {
        assert CollapseMetadata(u.metadata)[k] == u.metadata.entries[k];
        TaggedValue.CollapseExact(u.metadata.entries[k]);
      }
    }
    if Representable(u) {
      forall k | k in u.metadata.entries ensures TaggedValue.Collapse(u.metadata.entries[k]) == u.metadata.entries[k] {
        TaggedValue.CollapseExact(u.metadata.entries[k]);
      }
      assert CollapseLimits(u.settings.limits) == u.settings.limits.entries;
      assert CollapseMetadata(u.metadata) == u.metadata.entries;
    }
  }

  // ---------------------------------------------------------------------
  // Frame: what an offset decodes to does not change when nodes are appended.

  lemma NotificationSeqSnoc(nodes: seq<Node>, elems: seq<Offset>, off: Offset)
    ensures NotificationSeq(nodes, elems + [off]) == NotificationSeq(nodes, elems) + [NotificationOf(nodes, off)]
  {
    assert forall i | 0 <= i < |elems| :: (elems + [off])[i] == elems[i];
  }

  lemma LimitSeqSnoc(nodes: seq<Node>, elems: seq<Offset>, off: Offset)
    ensures LimitSeq(nodes, elems + [off]) == LimitSeq(nodes, elems) + [LimitOf(nodes, off)]
  {
    assert forall i | 0 <= i < |elems| :: (elems + [off])[i] == elems[i];
  }

  lemma EntrySeqSnoc(nodes: seq<Node>, elems: seq<Offset>, off: Offset)
    ensures EntrySeq(nodes, elems + [off]) == EntrySeq(nodes, elems) + [EntryOf(nodes, off)]
  {
    assert forall i | 0 <= i < |elems| :: (elems + [off])[i] == elems[i];
  }

  lemma StringSeqFrame(nodes: seq<Node>, nodes': seq<Node>, elems: seq<Offset>)
    requires WellFormed(nodes') && nodes <= nodes'
    requires forall i | 0 <= i < |elems| :: elems[i] <= |nodes|
    ensures StringSeq(nodes, elems) == StringSeq(nodes', elems)
  {
    forall i | 0 <= i < |elems| ensures StringAt(nodes, elems[i]) == StringAt(nodes', elems[i]) {
      ReadFrame(nodes, nodes', elems[i]);
    }
  }

  lemma LinkSeqFrame(nodes: seq<Node>, nodes': seq<Node>, elems: seq<Offset>)
    requires WellFormed(nodes') && nodes <= nodes'
    requires forall i | 0 <= i < |elems| :: elems[i] <= |nodes|
    ensures LinkSeq(nodes, elems) == LinkSeq(nodes', elems)
  {
    forall i | 0 <= i < |elems| ensures LinkOf(nodes, elems[i]) == LinkOf(nodes', elems[i]) {
      ReadFrame(nodes, nodes', elems[i]);
    }
  }

  lemma NotificationSeqFrame(nodes: seq<Node>, nodes': seq<Node>, elems: seq<Offset>)
    requires WellFormed(nodes') && nodes <= nodes'
    requires forall i | 0 <= i < |elems| :: elems[i] <= |nodes|
    ensures NotificationSeq(nodes, elems) == NotificationSeq(nodes', elems)
  {
    forall i | 0 <= i < |elems| ensures NotificationOf(nodes, elems[i]) == NotificationOf(nodes', elems[i]) {
      ReadFrame(nodes, nodes', elems[i]);
    }
  }

  lemma LimitSeqFrame(nodes: seq<Node>, nodes': seq<Node>, elems: seq<Offset>)
    requires WellFormed(nodes') && nodes <= nodes'
    requires forall i | 0 <= i < |elems| :: elems[i] <= |nodes|
    ensures LimitSeq(nodes, elems) == LimitSeq(nodes', elems)
  {
    forall i | 0 <= i < |elems| ensures LimitOf(nodes, elems[i]) == LimitOf(nodes', elems[i]) {
      ReadFrame(nodes, nodes', elems[i]);
    }
  }

  lemma EntryFrame(nodes: seq<Node>, nodes': seq<Node>, off: Offset)
    requires WellFormed(nodes') && nodes <= nodes' && off <= |nodes|
    ensures EntryOf(nodes, off) == EntryOf(nodes', off)
  {
    ReadFrame(nodes, nodes', off);
    assert SlotsOf(nodes, off) == SlotsOf(nodes', off);
  }

  lemma EntrySeqFrame(nodes: seq<Node>, nodes': seq<Node>, elems: seq<Offset>)
    requires WellFormed(nodes') && nodes <= nodes'
    requires forall i | 0 <= i < |elems| :: elems[i] <= |nodes|
    ensures EntrySeq(nodes, elems) == EntrySeq(nodes', elems)
  {
    forall i | 0 <= i < |elems| ensures EntryOf(nodes, elems[i]) == EntryOf(nodes', elems[i]) {
      EntryFrame(nodes, nodes', elems[i]);
    }
  }

  /** Reading a vector slot of the table at `off` is unaffected by appended nodes. */
  lemma VectorFieldFrame(nodes: seq<Node>, nodes': seq<Node>, off: Offset, slot: nat)
    requires WellFormed(nodes') && nodes <= nodes' && off <= |nodes|
    ensures VectorField(nodes, off, slot) == VectorField(nodes', off, slot)
    ensures forall i | 0 <= i < |VectorField(nodes, off, slot)| :: VectorField(nodes, off, slot)[i] <= |nodes|
  {
    ReadFrame(nodes, nodes', off);
    ReadFrame(nodes, nodes', RefField(nodes, off, slot));
  }

  lemma PreferencesFrame(nodes: seq<Node>, nodes': seq<Node>, off: Offset)
    requires WellFormed(nodes') && nodes <= nodes' && off <= |nodes|
    ensures PreferencesOf(nodes, off) == PreferencesOf(nodes', off)
  {
    ReadFrame(nodes, nodes', off);
    ReadFrame(nodes, nodes', RefField(nodes, off, PREFERENCES_PRIVACY));
    VectorFieldFrame(nodes, nodes', off, PREFERENCES_NOTIFICATIONS);
    NotificationSeqFrame(nodes, nodes', VectorField(nodes, off, PREFERENCES_NOTIFICATIONS));
  }

  lemma ProfileFrame(nodes: seq<Node>, nodes': seq<Node>, off: Offset)
    requires WellFormed(nodes') && nodes <= nodes' && off <= |nodes|
    ensures ProfileOf(nodes, off) == ProfileOf(nodes', off)
  {
    ReadFrame(nodes, nodes', off);
    PreferencesFrame(nodes, nodes', RefField(nodes, off, PROFILE_PREFERENCES));
    VectorFieldFrame(nodes, nodes', off, PROFILE_SOCIAL_LINKS);
    LinkSeqFrame(nodes, nodes', VectorField(nodes, off, PROFILE_SOCIAL_LINKS));
  }

  lemma SettingsFrame(nodes: seq<Node>, nodes': seq<Node>, off: Offset)
    requires WellFormed(nodes') && nodes <= nodes' && off <= |nodes|
    ensures SettingsOf(nodes, off) == SettingsOf(nodes', off)
  {
    ReadFrame(nodes, nodes', off);
    VectorFieldFrame(nodes, nodes', off, SETTINGS_FEATURES);
    StringSeqFrame(nodes, nodes', VectorField(nodes, off, SETTINGS_FEATURES));
    VectorFieldFrame(nodes, nodes', off, SETTINGS_LIMITS);
    LimitSeqFrame(nodes, nodes', VectorField(nodes, off, SETTINGS_LIMITS));
  }

  lemma UserFrame(nodes: seq<Node>, nodes': seq<Node>, off: Offset)
    requires WellFormed(nodes') && nodes <= nodes' && off <= |nodes|
    ensures UserOf(nodes, off) == UserOf(nodes', off)
  {
    ReadFrame(nodes, nodes', off);
    ProfileFrame(nodes, nodes', RefField(nodes, off, USER_PROFILE));
    SettingsFrame(nodes, nodes', RefField(nodes, off, USER_SETTINGS));
    VectorFieldFrame(nodes, nodes', off, USER_TAGS);
    StringSeqFrame(nodes, nodes', VectorField(nodes, off, USER_TAGS));
    VectorFieldFrame(nodes, nodes', off, USER_METADATA);
    EntrySeqFrame(nodes, nodes', VectorField(nodes, off, USER_METADATA));
  }

  lemma UserSeqFrame(nodes: seq<Node>, nodes': seq<Node>, elems: seq<Offset>)
    requires WellFormed(nodes') && nodes <= nodes'
    requires forall i | 0 <= i < |elems| :: elems[i] <= |nodes|
    ensures UserSeq(nodes, elems) == UserSeq(nodes', elems)
  {
    forall i | 0 <= i < |elems| ensures UserOf(nodes, elems[i]) == UserOf(nodes', elems[i]) {
      UserFrame(nodes, nodes', elems[i]);
    }
  }
}
