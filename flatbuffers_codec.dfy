/**
 * The FlatBuffers encoders: each drives the builder bottom-up (children,
 * strings and vectors before their parent's Start) and promises that what
 * it wrote decodes, by the layout module's decode specification, to the
 * collapsed input. The read lemmas beside each encoder connect the nodes it
 * appended to that specification.
 */
module FlatBuffersCodec {
  import opened Wrappers
  import opened GoInts
  import opened Models
  import opened EntryMaps
  import opened FlatBuilder
  import opened FlatLayout
  import TaggedValue

  /**
   * Why decoding a UserList failed. The accessor failure the Go code also
   * checks for cannot happen on a finished buffer (every index below the
   * vector length names a user), so it has no constructor here.
   */
  datatype DecodeError = NoUsers // the UserList holds no user

  function CollapseUsers(users: seq<User>): (r: seq<User>)
    ensures |r| == |users|
  {
    seq(|users|, i requires 0 <= i < |users| => CollapseUser(users[i]))
  }

  // ---------------------------------------------------------------------
  // Encoding.

  /**
   * Opens a vector, prepends `offs` from the last to the first and closes
   * it: the finished vector holds the offsets in their collected order.
   */
  method BuildVector(b: Builder, offs: seq<Offset>) returns (vec: Offset)
    requires b.Valid() && b.open == Idle
    requires forall i | 0 <= i < |offs| :: 1 <= offs[i] <= |b.nodes|
    modifies b
    ensures b.Valid() && b.open == Idle
    ensures b.nodes == old(b.nodes) + [Vector(offs)] && vec == |b.nodes|
  {
    b.StartVector(|offs|);
    var i := |offs|;
    while i > 0
      invariant 0 <= i <= |offs|
      invariant b.Valid() && b.nodes == old(b.nodes) && b.open == InVector(offs[i..])
    {
      i := i - 1;
      b.PrependUOffsetT(offs[i]);
      assert [offs[i]] + offs[i + 1..] == offs[i..];
    }
    vec := b.EndVector(|offs|);
  }

  /** Creates one string per element, in order, collecting their offsets. */
  method CreateStrings(b: Builder, xs: seq<string>) returns (offs: seq<Offset>)
    requires b.Valid() && b.open == Idle
    modifies b
    ensures b.Valid() && b.open == Idle && old(b.nodes) <= b.nodes
    ensures |offs| == |xs| && forall i | 0 <= i < |offs| :: 1 <= offs[i] <= |b.nodes|
    ensures StringSeq(b.nodes, offs) == xs
  {
    offs := [];
    var i := 0;
    while i < |xs|
      invariant 0 <= i <= |xs|
      invariant b.Valid() && b.open == Idle && old(b.nodes) <= b.nodes
      invariant |offs| == i && forall j | 0 <= j < i :: 1 <= offs[j] <= |b.nodes|
      invariant StringSeq(b.nodes, offs) == xs[..i]
    {
      ghost var before := b.nodes;
      var off := b.CreateString(xs[i]);
      StringSeqFrame(before, b.nodes, offs);
      offs := offs + [off];
      assert StringSeq(b.nodes, offs) == StringSeq(b.nodes, offs[..i]) + [xs[i]];
      assert offs[..i] == offs[..|offs| - 1];
      assert xs[..i + 1] == xs[..i] + [xs[i]];
      i := i + 1;
    }
    assert xs[..i] == xs;
  }

  method LinkToFlatBuffer(b: Builder, link: Link) returns (off: Offset)
    requires b.Valid() && b.open == Idle
    modifies b
    ensures b.Valid() && b.open == Idle && old(b.nodes) <= b.nodes && 1 <= off <= |b.nodes|
    ensures LinkOf(b.nodes, off) == link
  {
    var platformOffset := b.CreateString(link.platform);
    var urlOffset := b.CreateString(link.url);
    b.StartObject(2);
    b.AddOffset(LINK_PLATFORM, platformOffset);
    b.AddOffset(LINK_URL, urlOffset);
    off := b.EndObject();
  }

  /** The social links in order, one Link table each. */
  method LinksToFlatBuffer(b: Builder, links: seq<Link>) returns (offs: seq<Offset>)
    requires b.Valid() && b.open == Idle
    modifies b
    ensures b.Valid() && b.open == Idle && old(b.nodes) <= b.nodes
    ensures |offs| == |links| && forall i | 0 <= i < |offs| :: 1 <= offs[i] <= |b.nodes|
    ensures LinkSeq(b.nodes, offs) == links
  {
    offs := [];
    var i := 0;
    while i < |links|
      invariant 0 <= i <= |links|
      invariant b.Valid() && b.open == Idle && old(b.nodes) <= b.nodes
      invariant |offs| == i && forall j | 0 <= j < i :: 1 <= offs[j] <= |b.nodes|
      invariant LinkSeq(b.nodes, offs) == links[..i]
    {
      ghost var before := b.nodes;
      var off := LinkToFlatBuffer(b, links[i]);
      LinkSeqFrame(before, b.nodes, offs);
      offs := offs + [off];
      assert LinkSeq(b.nodes, offs) == LinkSeq(b.nodes, offs[..i]) + [links[i]];
      assert offs[..i] == offs[..|offs| - 1];
      assert links[..i + 1] == links[..i] + [links[i]];
      i := i + 1;
    }
    assert links[..i] == links;
  }

  /** The Link tables of the social links and the vector holding them, in order. */
  method LinksVector(b: Builder, links: seq<Link>) returns (vec: Offset)
    requires b.Valid() && b.open == Idle
    modifies b
    ensures b.Valid() && b.open == Idle && old(b.nodes) <= b.nodes && 1 <= vec <= |b.nodes|
    ensures LinkSeq(b.nodes, VectorAt(b.nodes, vec)) == links
  {
    var offs := LinksToFlatBuffer(b, links);
    ghost var afterTables := b.nodes;
    vec := BuildVector(b, offs);
    LinkSeqFrame(afterTables, b.nodes, offs);
    assert VectorAt(b.nodes, vec) == offs;
  }

  /** One string per element and the vector holding them, in order. */
  method StringsVector(b: Builder, xs: seq<string>) returns (vec: Offset)
    requires b.Valid() && b.open == Idle
    modifies b
    ensures b.Valid() && b.open == Idle && old(b.nodes) <= b.nodes && 1 <= vec <= |b.nodes|
    ensures StringSeq(b.nodes, VectorAt(b.nodes, vec)) == xs
  {
    var offs := CreateStrings(b, xs);
    ghost var afterStrings := b.nodes;
    vec := BuildVector(b, offs);
    StringSeqFrame(afterStrings, b.nodes, offs);
    assert VectorAt(b.nodes, vec) == offs;
  }

  method NotificationToFlatBuffer(b: Builder, key: string, value: bool) returns (off: Offset)
    requires b.Valid() && b.open == Idle
    modifies b
    ensures b.Valid() && b.open == Idle && old(b.nodes) <= b.nodes && 1 <= off <= |b.nodes|
    ensures NotificationOf(b.nodes, off) == (key, value)
  {
    var keyOffset := b.CreateString(key);
    b.StartObject(2);
    b.AddOffset(NOTIFICATION_KEY, keyOffset);
    b.AddBool(NOTIFICATION_VALUE, value);
    off := b.EndObject();
  }

  /**
   * One NotificationSetting table per map entry, in whatever order the map
   * is ranged over; `es` is that order, and the tables read back as `es`.
   */
  method NotificationsToFlatBuffer(b: Builder, m: map<string, bool>) returns (offs: seq<Offset>, ghost es: seq<(string, bool)>)
    requires b.Valid() && b.open == Idle
    modifies b
    ensures b.Valid() && b.open == Idle && old(b.nodes) <= b.nodes
    ensures forall i | 0 <= i < |offs| :: 1 <= offs[i] <= |b.nodes|
    ensures NotificationSeq(b.nodes, offs) == es && Enumerates(es, m)
  {
    offs := [];
    es := [];
    ghost var done: map<string, bool> := map[];
    var rest := m.Keys;
    while rest != {}
      invariant b.Valid() && b.open == Idle && old(b.nodes) <= b.nodes
      invariant rest <= m.Keys && done.Keys == m.Keys - rest
      invariant forall k | k in done :: done[k] == m[k]
      invariant forall j | 0 <= j < |offs| :: 1 <= offs[j] <= |b.nodes|
      invariant NotificationSeq(b.nodes, offs) == es && Enumerates(es, done)
      decreases rest
    {
      var key :| key in rest;
      ghost var before := b.nodes;
      var off := NotificationToFlatBuffer(b, key, m[key]);
      NotificationSeqFrame(before, b.nodes, offs);
      EnumeratesExtend(es, done, key, m[key]);
      ghost var prev := offs;
      offs := offs + [off];
      es := es + [(key, m[key])];
      NotificationSeqSnoc(b.nodes, prev, off);
      done := done[key := m[key]];
      rest := rest - {key};
    }
    assert done == m;
  }

  /** The NotificationSetting tables of a map and the vector holding them. */
  method NotificationsVector(b: Builder, m: map<string, bool>) returns (vec: Offset)
    requires b.Valid() && b.open == Idle
    modifies b
    ensures b.Valid() && b.open == Idle && old(b.nodes) <= b.nodes && 1 <= vec <= |b.nodes|
    ensures MapOf(NotificationSeq(b.nodes, VectorAt(b.nodes, vec))) == m
  {
    var offs, es := NotificationsToFlatBuffer(b, m);
    ghost var afterTables := b.nodes;
    vec := BuildVector(b, offs);
    NotificationSeqFrame(afterTables, b.nodes, offs);
    MapOfEnumeration(es, m);
    assert VectorAt(b.nodes, vec) == offs;
  }

  method LimitToFlatBuffer(b: Builder, key: string, value: Int64) returns (off: Offset)
    requires b.Valid() && b.open == Idle
    modifies b
    ensures b.Valid() && b.open == Idle && old(b.nodes) <= b.nodes && 1 <= off <= |b.nodes|
    ensures LimitOf(b.nodes, off) == (key, Wrap32(value) as Int64)
  {
    var keyOffset := b.CreateString(key);
    b.StartObject(2);
    b.AddOffset(LIMIT_KEY, keyOffset);
    b.AddInt(LIMIT_VALUE, Wrap32(value));
    off := b.EndObject();
  }

  /**
   * One LimitSetting table per map entry, its value truncated to int32, in
   * whatever order the map is ranged over; `es` is that order.
   */
  method LimitsToFlatBuffer(b: Builder, m: map<string, Int64>) returns (offs: seq<Offset>, ghost es: seq<(string, Int64)>)
    requires b.Valid() && b.open == Idle
    modifies b
    ensures b.Valid() && b.open == Idle && old(b.nodes) <= b.nodes
    ensures forall i | 0 <= i < |offs| :: 1 <= offs[i] <= |b.nodes|
    ensures LimitSeq(b.nodes, offs) == es && Enumerates(es, CollapseLimits(DictOf(m)))
  {
    offs := [];
    es := [];
    ghost var target := CollapseLimits(DictOf(m));
    ghost var done: map<string, Int64> := map[];
    var rest := m.Keys;
    while rest != {}
      invariant b.Valid() && b.open == Idle && old(b.nodes) <= b.nodes
      invariant rest <= m.Keys && done.Keys == m.Keys - rest
      invariant forall k | k in done :: k in target && done[k] == target[k]
      invariant forall j | 0 <= j < |offs| :: 1 <= offs[j] <= |b.nodes|
      invariant LimitSeq(b.nodes, offs) == es && Enumerates(es, done)
      decreases rest
    {
      var key :| key in rest;
      ghost var before := b.nodes;
      var off := LimitToFlatBuffer(b, key, m[key]);
      ghost var value := target[key];
      LimitSeqFrame(before, b.nodes, offs);
      EnumeratesExtend(es, done, key, value);
      ghost var prev := offs;
      offs := offs + [off];
      es := es + [(key, value)];
      LimitSeqSnoc(b.nodes, prev, off);
      done := done[key := value];
      rest := rest - {key};
    }
    assert done == target;
  }

  /** The LimitSetting tables of a map and the vector holding them. */
  method LimitsVector(b: Builder, m: map<string, Int64>) returns (vec: Offset)
    requires b.Valid() && b.open == Idle
    modifies b
    ensures b.Valid() && b.open == Idle && old(b.nodes) <= b.nodes && 1 <= vec <= |b.nodes|
    ensures MapOf(LimitSeq(b.nodes, VectorAt(b.nodes, vec))) == CollapseLimits(DictOf(m))
  {
    var offs, es := LimitsToFlatBuffer(b, m);
    ghost var afterTables := b.nodes;
    vec := BuildVector(b, offs);
    LimitSeqFrame(afterTables, b.nodes, offs);
    MapOfEnumeration(es, CollapseLimits(DictOf(m)));
    assert VectorAt(b.nodes, vec) == offs;
  }

  method PrivacySettingsToFlatBuffer(b: Builder, privacy: PrivacySettings) returns (off: Offset)
    requires b.Valid() && b.open == Idle
    modifies b
    ensures b.Valid() && b.open == Idle && old(b.nodes) <= b.nodes && 1 <= off <= |b.nodes|
    ensures PrivacyOf(b.nodes, off) == privacy
  {
    b.StartObject(3);
    b.AddBool(PRIVACY_PROFILE_PUBLIC, privacy.profilePublic);
    b.AddBool(PRIVACY_EMAIL_VISIBLE, privacy.emailVisible);
    b.AddBool(PRIVACY_SHOW_ACTIVITY, privacy.showActivity);
    off := b.EndObject();
  }

  /**
   * Notifications (only when the map is non-empty), then Privacy, then the
   * strings, then the Preferences table itself.
   */
  method PreferencesToFlatBuffer(b: Builder, prefs: Preferences) returns (off: Offset)
    requires b.Valid() && b.open == Idle
    modifies b
    ensures b.Valid() && b.open == Idle && old(b.nodes) <= b.nodes && 1 <= off <= |b.nodes|
    ensures PreferencesOf(b.nodes, off) == CollapsePreferences(prefs)
    // the vector is wired in only for a non-empty map; Privacy always is
    ensures RefField(b.nodes, off, PREFERENCES_NOTIFICATIONS) != 0 <==> prefs.notifications.Size() > 0
    ensures RefField(b.nodes, off, PREFERENCES_PRIVACY) != 0
  {
    var notificationsVector: Offset := 0;
    if prefs.notifications.Size() > 0 {
      notificationsVector := NotificationsVector(b, prefs.notifications.entries);
    }
    ghost var afterVector := b.nodes;
    var privacyOffset := PrivacySettingsToFlatBuffer(b, prefs.privacy);
    ghost var children := b.nodes;
    PreferencesChildrenFrame(children, prefs, notificationsVector, privacyOffset, afterVector, children);
    off := PreferencesTable(b, prefs, notificationsVector, privacyOffset);
    PreferencesBuilt(b.nodes, children, prefs, notificationsVector, privacyOffset);
  }

  /** The strings of a Preferences and its table, once its vector and Privacy table are finished. */
  method PreferencesTable(b: Builder, prefs: Preferences, notificationsVector: Offset, privacyOffset: Offset) returns (off: Offset)
    requires b.Valid() && b.open == Idle
    requires notificationsVector <= |b.nodes| && 1 <= privacyOffset <= |b.nodes|
    requires notificationsVector != 0 <==> prefs.notifications.Size() > 0
    modifies b
    ensures b.Valid() && b.open == Idle && off == |b.nodes|
    ensures b.nodes == old(b.nodes) + PreferencesNodes(prefs, |old(b.nodes)|, notificationsVector, privacyOffset)
  {
    var themeOffset := b.CreateString(prefs.theme);
    var languageOffset := b.CreateString(prefs.language);
    b.StartObject(4);
    b.AddOffset(PREFERENCES_THEME, themeOffset);
    b.AddOffset(PREFERENCES_LANGUAGE, languageOffset);
    AddVectorWhen(b, prefs.notifications.Size() > 0, PREFERENCES_NOTIFICATIONS, notificationsVector);
    b.AddOffset(PREFERENCES_PRIVACY, privacyOffset);
    off := b.EndObject();
  }

  /** The two strings and the table PreferencesTable appends after `n` nodes. */
  function PreferencesNodes(prefs: Preferences, n: nat, vector: Offset, privacy: Offset): seq<Node>
  {
    [Str(prefs.theme), Str(prefs.language), Table(PreferencesFields(n, vector, privacy))]
  }

  /** The slots PreferencesTable writes; the vector slot only for a non-empty map. */
  function PreferencesFields(n: nat, vector: Offset, privacy: Offset): map<nat, Field>
  {
    var strs := map[PREFERENCES_THEME := Ref(n + 1), PREFERENCES_LANGUAGE := Ref(n + 2)];
    WithRef(strs, PREFERENCES_NOTIFICATIONS, vector)[PREFERENCES_PRIVACY := Ref(privacy)]
  }

  /** What a reader sees in the slots of the Preferences table's field map. */
  lemma PreferencesSlots(n: nat, vector: Offset, privacy: Offset)
    ensures var fields := PreferencesFields(n, vector, privacy);
      && RefSlot(fields, PREFERENCES_THEME) == n + 1 && RefSlot(fields, PREFERENCES_LANGUAGE) == n + 2
      && RefSlot(fields, PREFERENCES_NOTIFICATIONS) == vector && RefSlot(fields, PREFERENCES_PRIVACY) == privacy
  {
  }

  lemma PreferencesChildrenFrame(nodes: seq<Node>, prefs: Preferences, vector: Offset, privacy: Offset,
                                 earlier: seq<Node>, early: seq<Node>)
    requires WellFormed(nodes) && earlier <= early <= nodes
    requires vector <= |earlier|
    requires MapOf(NotificationSeq(earlier, VectorAt(earlier, vector))) == prefs.notifications.Entries()
    requires 1 <= privacy <= |early| && PrivacyOf(early, privacy) == prefs.privacy
    ensures MapOf(NotificationSeq(nodes, VectorAt(nodes, vector))) == prefs.notifications.Entries()
    ensures PrivacyOf(nodes, privacy) == prefs.privacy
  {
    VectorFrame(earlier, nodes, vector);
    NotificationSeqFrame(earlier, nodes, VectorAt(earlier, vector));
    ReadFrame(early, nodes, privacy);
  }

  /**
   * The nodes PreferencesTable appends to `children` read back as the
   * collapsed preferences, given that `children` holds the vector and the
   * Privacy table.
   */
  lemma PreferencesBuilt(nodes: seq<Node>, children: seq<Node>, prefs: Preferences, vector: Offset, privacy: Offset)
    requires WellFormed(nodes)
    requires vector <= |children| && 1 <= privacy <= |children|
    requires MapOf(NotificationSeq(children, VectorAt(children, vector))) == prefs.notifications.Entries()
    requires PrivacyOf(children, privacy) == prefs.privacy
    requires nodes == children + PreferencesNodes(prefs, |children|, vector, privacy)
    ensures PreferencesOf(nodes, |nodes|) == CollapsePreferences(prefs)
    ensures RefField(nodes, |nodes|, PREFERENCES_NOTIFICATIONS) == vector
    ensures RefField(nodes, |nodes|, PREFERENCES_PRIVACY) == privacy
  {
    PreferencesChildrenFrame(nodes, prefs, vector, privacy, children, children);
    PreferencesRead(nodes, children, prefs, vector, privacy);
  }

  /** Reading back the Preferences table PreferencesTable appends. */
  lemma PreferencesRead(nodes: seq<Node>, children: seq<Node>, prefs: Preferences, vector: Offset, privacy: Offset)
    requires privacy != 0
    requires |nodes| == |children| + 3
    requires nodes[|children|] == Str(prefs.theme) && nodes[|children| + 1] == Str(prefs.language)
    requires nodes[|children| + 2] == Table(PreferencesFields(|children|, vector, privacy))
    requires MapOf(NotificationSeq(nodes, VectorAt(nodes, vector))) == prefs.notifications.Entries()
    requires PrivacyOf(nodes, privacy) == prefs.privacy
    ensures PreferencesOf(nodes, |nodes|) == CollapsePreferences(prefs)
    ensures RefField(nodes, |nodes|, PREFERENCES_NOTIFICATIONS) == vector
    ensures RefField(nodes, |nodes|, PREFERENCES_PRIVACY) == privacy
  {
    assert FieldsAt(nodes, |nodes|) == PreferencesFields(|children|, vector, privacy);
    PreferencesSlots(|children|, vector, privacy);
  }

  /**
   * Social links (only when the slice is non-empty), then Preferences, then
   * the strings and the Profile table itself.
   */
  method ProfileToFlatBuffer(b: Builder, profile: Profile) returns (off: Offset)
    requires b.Valid() && b.open == Idle
    modifies b
    ensures b.Valid() && b.open == Idle && old(b.nodes) <= b.nodes && 1 <= off <= |b.nodes|
    ensures ProfileOf(b.nodes, off) == CollapseProfile(profile)
    // the vector is wired in only for a non-empty slice; Preferences always is
    ensures RefField(b.nodes, off, PROFILE_SOCIAL_LINKS) != 0 <==> profile.socialLinks.Len() > 0
    ensures RefField(b.nodes, off, PROFILE_PREFERENCES) != 0
  {
    var socialLinksVector: Offset := 0;
    if profile.socialLinks.Len() > 0 {
      socialLinksVector := LinksVector(b, profile.socialLinks.items);
    }
    ghost var afterVector := b.nodes;
    var preferencesOffset := PreferencesToFlatBuffer(b, profile.preferences);
    ghost var children := b.nodes;
    ProfileChildrenFrame(children, profile, socialLinksVector, preferencesOffset, afterVector, children);
    off := ProfileTable(b, profile, socialLinksVector, preferencesOffset);
    ProfileBuilt(b.nodes, children, profile, socialLinksVector, preferencesOffset);
  }

  /** The strings of a Profile and its table, once its children are finished. */
  method ProfileTable(b: Builder, profile: Profile, socialLinksVector: Offset, preferencesOffset: Offset) returns (off: Offset)
    requires b.Valid() && b.open == Idle
    requires socialLinksVector <= |b.nodes| && 1 <= preferencesOffset <= |b.nodes|
    requires socialLinksVector != 0 <==> profile.socialLinks.Len() > 0
    modifies b
    ensures b.Valid() && b.open == Idle && off == |b.nodes|
    ensures b.nodes == old(b.nodes) + ProfileNodes(profile, |old(b.nodes)|, socialLinksVector, preferencesOffset)
  {
    var firstNameOffset := b.CreateString(profile.firstName);
    var lastNameOffset := b.CreateString(profile.lastName);
    var bioOffset := b.CreateString(profile.bio);
    var avatarOffset := b.CreateString(profile.avatar);
    b.StartObject(6);
    b.AddOffset(PROFILE_FIRST_NAME, firstNameOffset);
    b.AddOffset(PROFILE_LAST_NAME, lastNameOffset);
    b.AddOffset(PROFILE_BIO, bioOffset);
    b.AddOffset(PROFILE_AVATAR, avatarOffset);
    AddVectorWhen(b, profile.socialLinks.Len() > 0, PROFILE_SOCIAL_LINKS, socialLinksVector);
    b.AddOffset(PROFILE_PREFERENCES, preferencesOffset);
    off := b.EndObject();
  }

  /**
   * The nodes ProfileTable appends to `children` (its four strings and the
   * table) read back as the collapsed profile, given that `children`
   * holds the links vector and the Preferences table.
   */
  lemma ProfileBuilt(nodes: seq<Node>, children: seq<Node>, profile: Profile, vector: Offset, preferences: Offset)
    requires WellFormed(nodes)
    requires vector <= |children| && 1 <= preferences <= |children|
    requires LinkSeq(children, VectorAt(children, vector)) == profile.socialLinks.Items()
    requires PreferencesOf(children, preferences) == CollapsePreferences(profile.preferences)
    requires nodes == children + ProfileNodes(profile, |children|, vector, preferences)
    ensures ProfileOf(nodes, |nodes|) == CollapseProfile(profile)
    ensures RefField(nodes, |nodes|, PROFILE_SOCIAL_LINKS) == vector
    ensures RefField(nodes, |nodes|, PROFILE_PREFERENCES) == preferences
  {
    ProfileChildrenFrame(nodes, profile, vector, preferences, children, children);
    ProfileRead(nodes, children, profile, vector, preferences);
  }

  /** The four strings and the table ProfileTable appends after `n` nodes. */
  function ProfileNodes(profile: Profile, n: nat, vector: Offset, preferences: Offset): seq<Node>
  {
    [Str(profile.firstName), Str(profile.lastName), Str(profile.bio), Str(profile.avatar),
     Table(ProfileFields(n, vector, preferences))]
  }

  /** The slots ProfileTable writes; the vector slot only for a non-empty slice. */
  function ProfileFields(n: nat, vector: Offset, preferences: Offset): map<nat, Field>
  {
    WithRef(map[PROFILE_FIRST_NAME := Ref(n + 1), PROFILE_LAST_NAME := Ref(n + 2),
                PROFILE_BIO := Ref(n + 3), PROFILE_AVATAR := Ref(n + 4)],
            PROFILE_SOCIAL_LINKS, vector)[PROFILE_PREFERENCES := Ref(preferences)]
  }

  /** What a reader sees in the slots of the Profile table's field map. */
  lemma ProfileSlots(n: nat, vector: Offset, preferences: Offset)
    ensures var fields := ProfileFields(n, vector, preferences);
      && RefSlot(fields, PROFILE_FIRST_NAME) == n + 1 && RefSlot(fields, PROFILE_LAST_NAME) == n + 2
      && RefSlot(fields, PROFILE_BIO) == n + 3 && RefSlot(fields, PROFILE_AVATAR) == n + 4
      && RefSlot(fields, PROFILE_SOCIAL_LINKS) == vector && RefSlot(fields, PROFILE_PREFERENCES) == preferences
  {
  }

  lemma ProfileChildrenFrame(nodes: seq<Node>, profile: Profile, vector: Offset, preferences: Offset,
                             earlier: seq<Node>, early: seq<Node>)
    requires WellFormed(nodes) && earlier <= early <= nodes
    requires vector <= |earlier| && LinkSeq(earlier, VectorAt(earlier, vector)) == profile.socialLinks.Items()
    requires preferences <= |early| && PreferencesOf(early, preferences) == CollapsePreferences(profile.preferences)
    ensures LinkSeq(nodes, VectorAt(nodes, vector)) == profile.socialLinks.Items()
    ensures PreferencesOf(nodes, preferences) == CollapsePreferences(profile.preferences)
  {
    PreferencesFrame(early, nodes, preferences);
    VectorFrame(earlier, nodes, vector);
    LinkSeqFrame(earlier, nodes, VectorAt(earlier, vector));
  }

  /** Reading back the Profile table ProfileTable appends. */
  lemma ProfileRead(nodes: seq<Node>, children: seq<Node>, profile: Profile, vector: Offset, preferences: Offset)
    requires preferences != 0
    requires |nodes| == |children| + 5
    requires nodes[|children|] == Str(profile.firstName) && nodes[|children| + 1] == Str(profile.lastName)
    requires nodes[|children| + 2] == Str(profile.bio) && nodes[|children| + 3] == Str(profile.avatar)
    requires nodes[|children| + 4] == Table(ProfileFields(|children|, vector, preferences))
    requires LinkSeq(nodes, VectorAt(nodes, vector)) == profile.socialLinks.Items()
    requires PreferencesOf(nodes, preferences) == CollapsePreferences(profile.preferences)
    ensures ProfileOf(nodes, |nodes|) == CollapseProfile(profile)
    ensures RefField(nodes, |nodes|, PROFILE_SOCIAL_LINKS) == vector
    ensures RefField(nodes, |nodes|, PROFILE_PREFERENCES) == preferences
  {
    assert FieldsAt(nodes, |nodes|) == ProfileFields(|children|, vector, preferences);
    ProfileSlots(|children|, vector, preferences);
  }

  /**
   * Metadata entries and their vector (only for a non-empty map), then the
   * tag strings and their vector (only for a non-empty slice), then the
   * Profile and Settings tables, then the name and email strings and the
   * User table itself.
   */
  method UserToFlatBuffer(b: Builder, u: User) returns (off: Offset)
    requires b.Valid() && b.open == Idle
    modifies b
    ensures b.Valid() && b.open == Idle && old(b.nodes) <= b.nodes && 1 <= off <= |b.nodes|
    ensures UserOf(b.nodes, off) == CollapseUser(u)
    // each vector is wired in only for a non-empty collection
    ensures RefField(b.nodes, off, USER_TAGS) != 0 <==> u.tags.Len() > 0
    ensures RefField(b.nodes, off, USER_METADATA) != 0 <==> u.metadata.Size() > 0
  {
    ghost var start := b.nodes;
    var metadataVector: Offset := 0;
    if u.metadata.Size() > 0 {
      metadataVector := MetadataVector(b, u.metadata.entries);
    } else {
      assert u.metadata.Entries() == map[];
    }
    ghost var afterMetadata := b.nodes;
    var tagsVector: Offset := 0;
    if u.tags.Len() > 0 {
      tagsVector := StringsVector(b, u.tags.items);
    }
    ghost var afterTags := b.nodes;
    assert start <= afterTags;
    var profileOffset := ProfileToFlatBuffer(b, u.profile);
    ghost var afterProfile := b.nodes;
    var settingsOffset := SettingsToFlatBuffer(b, u.settings);
    ghost var children := b.nodes;
    assert start <= children;
    UserChildrenFrame(children, u, tagsVector, metadataVector, profileOffset, settingsOffset,
                      afterMetadata, afterTags, afterProfile, children);
    off := UserTable(b, u, tagsVector, metadataVector, profileOffset, settingsOffset);
    assert children <= b.nodes;
    UserBuilt(b.nodes, children, u, tagsVector, metadataVector, profileOffset, settingsOffset);
  }

  /** The name and email strings and the User table, once its children are finished. */
  method UserTable(b: Builder, u: User, tagsVector: Offset, metadataVector: Offset,
                   profileOffset: Offset, settingsOffset: Offset) returns (off: Offset)
    requires b.Valid() && b.open == Idle
    requires tagsVector <= |b.nodes| && metadataVector <= |b.nodes|
    requires 1 <= profileOffset <= |b.nodes| && 1 <= settingsOffset <= |b.nodes|
    requires tagsVector != 0 <==> u.tags.Len() > 0
    requires metadataVector != 0 <==> u.metadata.Size() > 0
    modifies b
    ensures b.Valid() && b.open == Idle && off == |b.nodes|
    ensures b.nodes == old(b.nodes) + UserNodes(u, |old(b.nodes)|, tagsVector, metadataVector, profileOffset, settingsOffset)
  {
    ghost var n := |b.nodes|;
    var nameOffset := b.CreateString(u.name);
    var emailOffset := b.CreateString(u.email);
    assert nameOffset == n + 1 && emailOffset == n + 2;
    b.StartObject(10);
    b.AddInt(USER_ID, u.id);
    b.AddOffset(USER_NAME, nameOffset);
    b.AddOffset(USER_EMAIL, emailOffset);
    b.AddInt(USER_AGE, Wrap32(u.age));
    b.AddBool(USER_IS_ACTIVE, u.isActive);
    b.AddOffset(USER_PROFILE, profileOffset);
    b.AddOffset(USER_SETTINGS, settingsOffset);
    AddVectorWhen(b, u.tags.Len() > 0, USER_TAGS, tagsVector);
    AddVectorWhen(b, u.metadata.Size() > 0, USER_METADATA, metadataVector);
    b.AddInt(USER_CREATED_AT, u.createdAt);
    off := b.EndObject();
  }

  /** The slots UserTable writes; the vector slots only for non-empty collections. */
  function UserFields(u: User, n: nat, tags: Offset, metadata: Offset, profile: Offset, settings: Offset): map<nat, Field>
  {
    var children := map[USER_ID := Int(u.id), USER_NAME := Ref(n + 1), USER_EMAIL := Ref(n + 2),
                        USER_AGE := Int(Wrap32(u.age)), USER_IS_ACTIVE := Bool(u.isActive),
                        USER_PROFILE := Ref(profile), USER_SETTINGS := Ref(settings)];
    WithRef(WithRef(children, USER_TAGS, tags), USER_METADATA, metadata)[USER_CREATED_AT := Int(u.createdAt)]
  }

  /** The two strings and the table UserTable appends after `n` nodes. */
  function UserNodes(u: User, n: nat, tags: Offset, metadata: Offset, profile: Offset, settings: Offset): seq<Node>
  {
    [Str(u.name), Str(u.email), Table(UserFields(u, n, tags, metadata, profile, settings))]
  }

  /** What the children of a User decode to is unchanged by what is appended after them. */
  lemma UserChildrenFrame(nodes: seq<Node>, u: User, tags: Offset, metadata: Offset, profile: Offset, settings: Offset,
                          afterMetadata: seq<Node>, afterTags: seq<Node>, afterProfile: seq<Node>, early: seq<Node>)
    requires WellFormed(nodes) && afterMetadata <= afterTags <= afterProfile <= early <= nodes
    requires metadata <= |afterMetadata|
    requires MapOf(EntrySeq(afterMetadata, VectorAt(afterMetadata, metadata))) == CollapseMetadata(u.metadata)
    requires tags <= |afterTags| && StringSeq(afterTags, VectorAt(afterTags, tags)) == u.tags.Items()
    requires 1 <= profile <= |afterProfile| && ProfileOf(afterProfile, profile) == CollapseProfile(u.profile)
    requires 1 <= settings <= |early| && SettingsOf(early, settings) == CollapseSettings(u.settings)
    ensures MapOf(EntrySeq(nodes, VectorAt(nodes, metadata))) == CollapseMetadata(u.metadata)
    ensures StringSeq(nodes, VectorAt(nodes, tags)) == u.tags.Items()
    ensures ProfileOf(nodes, profile) == CollapseProfile(u.profile)
    ensures SettingsOf(nodes, settings) == CollapseSettings(u.settings)
  {
    VectorFrame(afterMetadata, nodes, metadata);
    EntrySeqFrame(afterMetadata, nodes, VectorAt(afterMetadata, metadata));
    VectorFrame(afterTags, nodes, tags);
    StringSeqFrame(afterTags, nodes, VectorAt(afterTags, tags));
    ProfileFrame(afterProfile, nodes, profile);
    SettingsFrame(early, nodes, settings);
  }

  /**
   * The nodes UserTable appends to `children` read back as the collapsed
   * user, given that `children` holds its vectors and nested tables.
   */
  lemma UserBuilt(nodes: seq<Node>, children: seq<Node>, u: User, tags: Offset, metadata: Offset, profile: Offset, settings: Offset)
    requires WellFormed(nodes)
    requires tags <= |children| && metadata <= |children| && 1 <= profile <= |children| && 1 <= settings <= |children|
    requires MapOf(EntrySeq(children, VectorAt(children, metadata))) == CollapseMetadata(u.metadata)
    requires StringSeq(children, VectorAt(children, tags)) == u.tags.Items()
    requires ProfileOf(children, profile) == CollapseProfile(u.profile)
    requires SettingsOf(children, settings) == CollapseSettings(u.settings)
    requires nodes == children + UserNodes(u, |children|, tags, metadata, profile, settings)
    ensures UserOf(nodes, |nodes|) == CollapseUser(u)
    ensures RefField(nodes, |nodes|, USER_TAGS) == tags
    ensures RefField(nodes, |nodes|, USER_METADATA) == metadata
  {
    UserChildrenFrame(nodes, u, tags, metadata, profile, settings, children, children, children, children);
    UserRead(nodes, children, u, tags, metadata, profile, settings);
  }

  /** Reading back the User table UserTable appends. */
  lemma UserRead(nodes: seq<Node>, children: seq<Node>, u: User, tags: Offset, metadata: Offset, profile: Offset, settings: Offset)
    requires profile != 0 && settings != 0
    requires |nodes| == |children| + 3
    requires nodes[|children|] == Str(u.name) && nodes[|children| + 1] == Str(u.email)
    requires nodes[|children| + 2] == Table(UserFields(u, |children|, tags, metadata, profile, settings))
    requires MapOf(EntrySeq(nodes, VectorAt(nodes, metadata))) == CollapseMetadata(u.metadata)
    requires StringSeq(nodes, VectorAt(nodes, tags)) == u.tags.Items()
    requires ProfileOf(nodes, profile) == CollapseProfile(u.profile)
    requires SettingsOf(nodes, settings) == CollapseSettings(u.settings)
    ensures UserOf(nodes, |nodes|) == CollapseUser(u)
    ensures RefField(nodes, |nodes|, USER_TAGS) == tags
    ensures RefField(nodes, |nodes|, USER_METADATA) == metadata
  {
    var fields := UserFields(u, |children|, tags, metadata, profile, settings);
    assert FieldsAt(nodes, |nodes|) == fields;
    UserSlots(fields, u, |children|, tags, metadata, profile, settings);
    UserScalarsRead(nodes, fields, u, |children|);
  }

  /** The scalar and string slots of a User table read back as the user's own. */
  lemma UserScalarsRead(nodes: seq<Node>, fields: map<nat, Field>, u: User, n: nat)
    requires |nodes| == n + 3 && FieldsAt(nodes, |nodes|) == fields
    requires nodes[n] == Str(u.name) && nodes[n + 1] == Str(u.email)
    requires IntSlot(fields, USER_ID) == u.id && RefSlot(fields, USER_NAME) == n + 1
    requires RefSlot(fields, USER_EMAIL) == n + 2 && IntSlot(fields, USER_AGE) == Wrap32(u.age)
    requires BoolSlot(fields, USER_IS_ACTIVE) == u.isActive && IntSlot(fields, USER_CREATED_AT) == u.createdAt
    ensures var r := UserOf(nodes, |nodes|);
      r.id == u.id && r.name == u.name && r.email == u.email && r.age == Wrap32(u.age)
      && r.isActive == u.isActive && r.createdAt == u.createdAt
  {
  }

  /** What a reader sees in the slots of the User table's field map. */
  lemma UserSlots(fields: map<nat, Field>, u: User, n: nat, tags: Offset, metadata: Offset, profile: Offset, settings: Offset)
    requires fields == UserFields(u, n, tags, metadata, profile, settings)
    ensures IntSlot(fields, USER_ID) == u.id && RefSlot(fields, USER_NAME) == n + 1
    ensures RefSlot(fields, USER_EMAIL) == n + 2 && IntSlot(fields, USER_AGE) == Wrap32(u.age)
    ensures BoolSlot(fields, USER_IS_ACTIVE) == u.isActive && IntSlot(fields, USER_CREATED_AT) == u.createdAt
    ensures RefSlot(fields, USER_PROFILE) == profile && RefSlot(fields, USER_SETTINGS) == settings
    ensures RefSlot(fields, USER_TAGS) == tags && RefSlot(fields, USER_METADATA) == metadata
  {
  }

  /**
   * One MetadataEntry table: the key, the value's string (a string value,
   * or the text of a value of no supported type) created first, then the
   * slots the value's type selects and its discriminant.
   */
  method MetadataEntryToFlatBuffer(b: Builder, key: string, value: Dyn) returns (off: Offset)
    requires b.Valid() && b.open == Idle
    modifies b
    ensures b.Valid() && b.open == Idle && old(b.nodes) <= b.nodes && 1 <= off <= |b.nodes|
    ensures SlotsOf(b.nodes, off) == TaggedValue.Observed(TaggedValue.Encode(value))
    ensures EntryOf(b.nodes, off) == (key, TaggedValue.Collapse(value))
  {
    var keyOffset := b.CreateString(key);
    var stringValueOffset: Offset := 0;
    if value.DString? {
      stringValueOffset := b.CreateString(value.s);
    } else if TaggedValue.FallsBackToText(value) {
      stringValueOffset := b.CreateString(value.text);
    }
    ghost var strings := b.nodes;
    off := EntryTable(b, value, keyOffset, stringValueOffset);
    EntryRead(b.nodes, strings, key, value, keyOffset, stringValueOffset);
  }

  /** The MetadataEntry table itself, once its strings exist. */
  method EntryTable(b: Builder, value: Dyn, keyOffset: Offset, stringValueOffset: Offset) returns (off: Offset)
    requires b.Valid() && b.open == Idle && keyOffset <= |b.nodes| && stringValueOffset <= |b.nodes|
    modifies b
    ensures b.Valid() && b.open == Idle && off == |b.nodes|
    ensures b.nodes == old(b.nodes) + [Table(EntryFields(value, keyOffset, stringValueOffset))]
  {
    b.StartObject(6);
    b.AddOffset(ENTRY_KEY, keyOffset);
    match value {
      case DString(_) =>
        b.AddOffset(ENTRY_STRING_VALUE, stringValueOffset);
        b.AddInt(ENTRY_VALUE_TYPE, TaggedValue.STRING_TAG);
      case DInt(i) =>
        b.AddInt(ENTRY_INT_VALUE, Wrap32(i));
        b.AddInt(ENTRY_VALUE_TYPE, TaggedValue.INT_TAG);
      case DBool(x) =>
        b.AddBool(ENTRY_BOOL_VALUE, x);
        b.AddInt(ENTRY_VALUE_TYPE, TaggedValue.BOOL_TAG);
      case DFloat32(wide) =>
        b.AddFloat(ENTRY_FLOAT_VALUE, wide);
        b.AddInt(ENTRY_VALUE_TYPE, TaggedValue.FLOAT_TAG);
      case DFloat64(bits) =>
        b.AddFloat(ENTRY_FLOAT_VALUE, bits);
        b.AddInt(ENTRY_VALUE_TYPE, TaggedValue.FLOAT_TAG);
      case _ =>
        b.AddOffset(ENTRY_STRING_VALUE, stringValueOffset);
        b.AddInt(ENTRY_VALUE_TYPE, TaggedValue.STRING_TAG);
    }
    assert b.open.fields == EntryFields(value, keyOffset, stringValueOffset);
    off := b.EndObject();
  }

  /** The slots MetadataEntryToFlatBuffer writes for each type of value. */
  function EntryFields(value: Dyn, key: Offset, str: Offset): map<nat, Field>
  {
    var w := TaggedValue.Encode(value);
    var withKey := map[ENTRY_KEY := Ref(key)];
    match value
    case DInt(_) => withKey[ENTRY_INT_VALUE := Int(w.int32.value)][ENTRY_VALUE_TYPE := Int(w.tag)]
    case DBool(x) => withKey[ENTRY_BOOL_VALUE := Bool(x)][ENTRY_VALUE_TYPE := Int(w.tag)]
    case DFloat32(wide) => withKey[ENTRY_FLOAT_VALUE := Float(PositiveZero(wide))][ENTRY_VALUE_TYPE := Int(w.tag)]
    case DFloat64(bits) => withKey[ENTRY_FLOAT_VALUE := Float(PositiveZero(bits))][ENTRY_VALUE_TYPE := Int(w.tag)]
    case _ => withKey[ENTRY_STRING_VALUE := Ref(str)][ENTRY_VALUE_TYPE := Int(w.tag)]
  }

  /** Reading back the MetadataEntry table appended after its strings. */
  lemma EntryRead(nodes: seq<Node>, strings: seq<Node>, key: string, value: Dyn, keyOffset: Offset, str: Offset)
    requires nodes == strings + [Table(EntryFields(value, keyOffset, str))]
    requires 1 <= keyOffset <= |strings| && strings[keyOffset - 1] == Str(key)
    requires value.DString? ==> 1 <= str <= |strings| && strings[str - 1] == Str(value.s)
    requires TaggedValue.FallsBackToText(value) ==> 1 <= str <= |strings| && strings[str - 1] == Str(value.text)
    requires value.DNil? ==> str == 0
    ensures SlotsOf(nodes, |nodes|) == TaggedValue.Observed(TaggedValue.Encode(value))
    ensures EntryOf(nodes, |nodes|) == (key, TaggedValue.Collapse(value))
  {
    assert FieldsAt(nodes, |nodes|) == EntryFields(value, keyOffset, str);
    EntrySlots(value, keyOffset, str);
    assert StringField(nodes, |nodes|, ENTRY_KEY) == key by {
      assert nodes[keyOffset - 1] == Str(key);
    }
    if value.DString? || TaggedValue.FallsBackToText(value) {
      assert nodes[str - 1] == strings[str - 1];
    }
    TaggedValue.RoundTrip(value);
  }

  /** What a reader sees in the slots of the MetadataEntry table's field map. */
  lemma EntrySlots(value: Dyn, key: Offset, str: Offset)
    ensures var f := EntryFields(value, key, str);
      var w := TaggedValue.Encode(value);
      && RefSlot(f, ENTRY_KEY) == key
      && IntSlot(f, ENTRY_VALUE_TYPE) == w.tag
      && RefSlot(f, ENTRY_STRING_VALUE) == (if w.tag == TaggedValue.STRING_TAG then str else 0)
      && Wrap32(IntSlot(f, ENTRY_INT_VALUE)) == w.int32.GetOr(0)
      && BoolSlot(f, ENTRY_BOOL_VALUE) == w.boolean.GetOr(false)
      && FloatSlot(f, ENTRY_FLOAT_VALUE) == PositiveZero(w.float.GetOr(0))
  {
  }

  /**
   * One MetadataEntry table per map entry, in whatever order the map is
   * ranged over; `es` is that order.
   */
  method MetadataToFlatBuffer(b: Builder, m: map<string, Dyn>) returns (offs: seq<Offset>, ghost es: seq<(string, Dyn)>)
    requires b.Valid() && b.open == Idle
    modifies b
    ensures b.Valid() && b.open == Idle && old(b.nodes) <= b.nodes
    ensures forall i | 0 <= i < |offs| :: 1 <= offs[i] <= |b.nodes|
    ensures EntrySeq(b.nodes, offs) == es && Enumerates(es, CollapseMetadata(DictOf(m)))
  {
    offs := [];
    es := [];
    ghost var target := CollapseMetadata(DictOf(m));
    ghost var done: map<string, Dyn> := map[];
    var rest := m.Keys;
    while rest != {}
      invariant b.Valid() && b.open == Idle && old(b.nodes) <= b.nodes
      invariant rest <= m.Keys && done.Keys == m.Keys - rest
      invariant forall k | k in done :: k in target && done[k] == target[k]
      invariant forall j | 0 <= j < |offs| :: 1 <= offs[j] <= |b.nodes|
      invariant EntrySeq(b.nodes, offs) == es && Enumerates(es, done)
      decreases rest
    {
      var key :| key in rest;
      ghost var before := b.nodes;
      var off := MetadataEntryToFlatBuffer(b, key, m[key]);
      ghost var value := target[key];
      EntrySeqFrame(before, b.nodes, offs);
      EnumeratesExtend(es, done, key, value);
      ghost var prev := offs;
      offs := offs + [off];
      es := es + [(key, value)];
      EntrySeqSnoc(b.nodes, prev, off);
      done := done[key := value];
      rest := rest - {key};
    }
    assert done == target;
  }

  /** The MetadataEntry tables of a map and the vector holding them. */
  method MetadataVector(b: Builder, m: map<string, Dyn>) returns (vec: Offset)
    requires b.Valid() && b.open == Idle
    modifies b
    ensures b.Valid() && b.open == Idle && old(b.nodes) <= b.nodes && 1 <= vec <= |b.nodes|
    ensures MapOf(EntrySeq(b.nodes, VectorAt(b.nodes, vec))) == CollapseMetadata(DictOf(m))
  {
    var offs, es := MetadataToFlatBuffer(b, m);
    ghost var afterTables := b.nodes;
    vec := BuildVector(b, offs);
    EntrySeqFrame(afterTables, b.nodes, offs);
    MapOfEnumeration(es, CollapseMetadata(DictOf(m)));
    assert VectorAt(b.nodes, vec) == offs;
  }

  /**
   * Features (only when the slice is non-empty), then Limits (only when the
   * map is non-empty), then the strings and the Settings table itself.
   */
  method SettingsToFlatBuffer(b: Builder, settings: Settings) returns (off: Offset)
    requires b.Valid() && b.open == Idle
    modifies b
    ensures b.Valid() && b.open == Idle && old(b.nodes) <= b.nodes && 1 <= off <= |b.nodes|
    ensures SettingsOf(b.nodes, off) == CollapseSettings(settings)
    // each vector is wired in only for a non-empty collection
    ensures RefField(b.nodes, off, SETTINGS_FEATURES) != 0 <==> settings.features.Len() > 0
    ensures RefField(b.nodes, off, SETTINGS_LIMITS) != 0 <==> settings.limits.Size() > 0
  {
    var featuresVector: Offset := 0;
    if settings.features.Len() > 0 {
      featuresVector := StringsVector(b, settings.features.items);
    }
    ghost var afterFeatures := b.nodes;
    var limitsVector: Offset := 0;
    if settings.limits.Size() > 0 {
      limitsVector := LimitsVector(b, settings.limits.entries);
    }
    ghost var children := b.nodes;
    SettingsChildrenFrame(children, settings, featuresVector, limitsVector, afterFeatures, children);
    off := SettingsTable(b, settings, featuresVector, limitsVector);
    SettingsBuilt(b.nodes, children, settings, featuresVector, limitsVector);
  }

  /** The strings of a Settings and its table, once its vectors are finished. */
  method SettingsTable(b: Builder, settings: Settings, featuresVector: Offset, limitsVector: Offset) returns (off: Offset)
    requires b.Valid() && b.open == Idle
    requires featuresVector <= |b.nodes| && limitsVector <= |b.nodes|
    requires featuresVector != 0 <==> settings.features.Len() > 0
    requires limitsVector != 0 <==> settings.limits.Size() > 0
    modifies b
    ensures b.Valid() && b.open == Idle && off == |b.nodes|
    ensures b.nodes == old(b.nodes) + SettingsNodes(settings, |old(b.nodes)|, featuresVector, limitsVector)
  {
    var languageOffset := b.CreateString(settings.language);
    var timezoneOffset := b.CreateString(settings.timeZone);
    b.StartObject(4);
    b.AddOffset(SETTINGS_LANGUAGE, languageOffset);
    b.AddOffset(SETTINGS_TIMEZONE, timezoneOffset);
    AddVectorWhen(b, settings.features.Len() > 0, SETTINGS_FEATURES, featuresVector);
    AddVectorWhen(b, settings.limits.Size() > 0, SETTINGS_LIMITS, limitsVector);
    off := b.EndObject();
  }

  /** The two strings and the table SettingsTable appends after `n` nodes. */
  function SettingsNodes(settings: Settings, n: nat, features: Offset, limits: Offset): seq<Node>
  {
    [Str(settings.language), Str(settings.timeZone), Table(SettingsFields(n, features, limits))]
  }

  /** The slots SettingsTable writes; each vector slot only for a non-empty collection. */
  function SettingsFields(n: nat, features: Offset, limits: Offset): map<nat, Field>
  {
    WithRef(WithRef(map[SETTINGS_LANGUAGE := Ref(n + 1), SETTINGS_TIMEZONE := Ref(n + 2)],
                    SETTINGS_FEATURES, features), SETTINGS_LIMITS, limits)
  }

  /** What a reader sees in the slots of the Settings table's field map. */
  lemma SettingsSlots(n: nat, features: Offset, limits: Offset)
    ensures var fields := SettingsFields(n, features, limits);
      && RefSlot(fields, SETTINGS_LANGUAGE) == n + 1 && RefSlot(fields, SETTINGS_TIMEZONE) == n + 2
      && RefSlot(fields, SETTINGS_FEATURES) == features && RefSlot(fields, SETTINGS_LIMITS) == limits
  {
  }

  lemma SettingsChildrenFrame(nodes: seq<Node>, settings: Settings, features: Offset, limits: Offset,
                              earlier: seq<Node>, early: seq<Node>)
    requires WellFormed(nodes) && earlier <= early <= nodes
    requires features <= |earlier| && StringSeq(earlier, VectorAt(earlier, features)) == settings.features.Items()
    requires limits <= |early| && MapOf(LimitSeq(early, VectorAt(early, limits))) == CollapseLimits(settings.limits)
    ensures StringSeq(nodes, VectorAt(nodes, features)) == settings.features.Items()
    ensures MapOf(LimitSeq(nodes, VectorAt(nodes, limits))) == CollapseLimits(settings.limits)
  {
    VectorFrame(earlier, nodes, features);
    StringSeqFrame(earlier, nodes, VectorAt(earlier, features));
    VectorFrame(early, nodes, limits);
    LimitSeqFrame(early, nodes, VectorAt(early, limits));
  }

  /**
   * The nodes SettingsTable appends to `children` read back as the
   * collapsed settings, given that `children` holds both vectors.
   */
  lemma SettingsBuilt(nodes: seq<Node>, children: seq<Node>, settings: Settings, features: Offset, limits: Offset)
    requires WellFormed(nodes)
    requires features <= |children| && limits <= |children|
    requires StringSeq(children, VectorAt(children, features)) == settings.features.Items()
    requires MapOf(LimitSeq(children, VectorAt(children, limits))) == CollapseLimits(settings.limits)
    requires nodes == children + SettingsNodes(settings, |children|, features, limits)
    ensures SettingsOf(nodes, |nodes|) == CollapseSettings(settings)
    ensures RefField(nodes, |nodes|, SETTINGS_FEATURES) == features
    ensures RefField(nodes, |nodes|, SETTINGS_LIMITS) == limits
  {
    SettingsChildrenFrame(nodes, settings, features, limits, children, children);
    SettingsRead(nodes, children, settings, features, limits);
  }

  /** Reading back the Settings table SettingsTable appends. */
  lemma SettingsRead(nodes: seq<Node>, children: seq<Node>, settings: Settings, features: Offset, limits: Offset)
    requires |nodes| == |children| + 3
    requires nodes[|children|] == Str(settings.language) && nodes[|children| + 1] == Str(settings.timeZone)
    requires nodes[|children| + 2] == Table(SettingsFields(|children|, features, limits))
    requires StringSeq(nodes, VectorAt(nodes, features)) == settings.features.Items()
    requires MapOf(LimitSeq(nodes, VectorAt(nodes, limits))) == CollapseLimits(settings.limits)
    ensures SettingsOf(nodes, |nodes|) == CollapseSettings(settings)
    ensures RefField(nodes, |nodes|, SETTINGS_FEATURES) == features
    ensures RefField(nodes, |nodes|, SETTINGS_LIMITS) == limits
  {
    assert FieldsAt(nodes, |nodes|) == SettingsFields(|children|, features, limits);
    SettingsSlots(|children|, features, limits);
  }

  /**
   * Adds a vector slot only when the collection is non-empty; the encoders
   * build a vector exactly then, and leave its offset 0 otherwise.
   */
  method AddVectorWhen(b: Builder, nonEmpty: bool, slot: nat, vector: Offset)
    requires b.Valid() && b.open.InTable? && vector <= |b.nodes|
    requires nonEmpty <==> vector != 0
    modifies b
    ensures b.Valid() && b.nodes == old(b.nodes)
    ensures b.open == InTable(WithRef(old(b.open.fields), slot, vector))
  {
    if nonEmpty {
      b.AddOffset(slot, vector);
    }
  }

  /** The slot map after an Add the encoder makes only for a non-empty collection, whose vector is otherwise 0. */
  function WithRef(fields: map<nat, Field>, slot: nat, vector: Offset): map<nat, Field>
  {
    if vector == 0 then fields else fields[slot := Ref(vector)]
  }
}
