/**
 * The FlatBuffers serializer's entry points and its decoders. Marshal and
 * MarshalUsers wrap the encoded users in a UserList table; Unmarshal and
 * UnmarshalUsers read a UserList back. Each decoder walks the buffer the
 * way the generated accessors do and computes the decode specification of
 * the layout module, so a round trip gives back the collapsed input.
 */
module FlatBuffersSerializer {
  import opened Wrappers
  import opened GoInts
  import opened Models
  import opened EntryMaps
  import opened FlatBuilder
  import opened FlatLayout
  import opened FlatBuffersCodec
  import TaggedValue

  // ---------------------------------------------------------------------
  // Decoding: the table at `off` of `nodes` back into the record graph.

  /** The strings of a vector slot, into a slice made with the vector's length. */
  method ReadStrings(nodes: seq<Node>, off: Offset, slot: nat) returns (xs: seq<string>)
    ensures xs == StringSeq(nodes, VectorField(nodes, off, slot))
  {
    var n := VectorLength(nodes, off, slot);
    xs := seq(n, _ => "");
    for i := 0 to n
      invariant |xs| == n
      invariant forall j | 0 <= j < i :: xs[j] == StringAt(nodes, VectorField(nodes, off, slot)[j])
    {
      xs := xs[i := StringAt(nodes, VectorField(nodes, off, slot)[i])];
    }
  }

  /** The notification settings of a Preferences table, inserted in vector order. */
  method ReadNotifications(nodes: seq<Node>, off: Offset) returns (m: map<string, bool>)
    ensures m == MapOf(NotificationSeq(nodes, VectorField(nodes, off, PREFERENCES_NOTIFICATIONS)))
  {
    ghost var v := VectorField(nodes, off, PREFERENCES_NOTIFICATIONS);
    m := map[];
    for i := 0 to VectorLength(nodes, off, PREFERENCES_NOTIFICATIONS)
      invariant m == MapOf(NotificationSeq(nodes, v[..i]))
    {
      var elem := TableElement(nodes, off, PREFERENCES_NOTIFICATIONS, i);
      if elem.Some? {
        var key := StringField(nodes, elem.value, NOTIFICATION_KEY);
        var value := BoolField(nodes, elem.value, NOTIFICATION_VALUE);
        m := m[key := value];
      }
      assert v[..i + 1] == v[..i] + [v[i]];
      NotificationSeqSnoc(nodes, v[..i], v[i]);
      MapOfSnoc(NotificationSeq(nodes, v[..i]), NotificationOf(nodes, v[i]));
    }
    assert v[..|v|] == v;
  }

  /** The limit settings of a Settings table, inserted in vector order; each value widens from int32. */
  method ReadLimits(nodes: seq<Node>, off: Offset) returns (m: map<string, Int64>)
    ensures m == MapOf(LimitSeq(nodes, VectorField(nodes, off, SETTINGS_LIMITS)))
  {
    ghost var v := VectorField(nodes, off, SETTINGS_LIMITS);
    m := map[];
    for i := 0 to VectorLength(nodes, off, SETTINGS_LIMITS)
      invariant m == MapOf(LimitSeq(nodes, v[..i]))
    {
      var elem := TableElement(nodes, off, SETTINGS_LIMITS, i);
      if elem.Some? {
        var key := StringField(nodes, elem.value, LIMIT_KEY);
        var value := Int32Field(nodes, elem.value, LIMIT_VALUE);
        m := m[key := value];
      }
      assert v[..i + 1] == v[..i] + [v[i]];
      LimitSeqSnoc(nodes, v[..i], v[i]);
      MapOfSnoc(LimitSeq(nodes, v[..i]), LimitOf(nodes, v[i]));
    }
    assert v[..|v|] == v;
  }

  /**
   * The metadata entries of a User table, inserted in vector order; each
   * value is read from the slot its discriminant selects.
   */
  method ReadMetadata(nodes: seq<Node>, off: Offset) returns (m: map<string, Dyn>)
    ensures m == MapOf(EntrySeq(nodes, VectorField(nodes, off, USER_METADATA)))
  {
    ghost var v := VectorField(nodes, off, USER_METADATA);
    m := map[];
    for i := 0 to VectorLength(nodes, off, USER_METADATA)
      invariant m == MapOf(EntrySeq(nodes, v[..i]))
    {
      var elem := TableElement(nodes, off, USER_METADATA, i);
      if elem.Some? {
        var key := StringField(nodes, elem.value, ENTRY_KEY);
        var value := TaggedValue.Decode(SlotsOf(nodes, elem.value));
        m := m[key := value];
      }
      assert v[..i + 1] == v[..i] + [v[i]];
      EntrySeqSnoc(nodes, v[..i], v[i]);
      MapOfSnoc(EntrySeq(nodes, v[..i]), EntryOf(nodes, v[i]));
    }
    assert v[..|v|] == v;
  }

  /** The social links of a Profile table, into a slice made with the vector's length. */
  method ReadLinks(nodes: seq<Node>, off: Offset) returns (links: seq<Link>)
    ensures links == LinkSeq(nodes, VectorField(nodes, off, PROFILE_SOCIAL_LINKS))
  {
    ghost var v := VectorField(nodes, off, PROFILE_SOCIAL_LINKS);
    var n := VectorLength(nodes, off, PROFILE_SOCIAL_LINKS);
    links := seq(n, _ => Link("", ""));
    for i := 0 to n
      invariant |links| == n
      invariant forall j | 0 <= j < i :: links[j] == LinkOf(nodes, v[j])
    {
      var elem := TableElement(nodes, off, PROFILE_SOCIAL_LINKS, i);
      if elem.Some? {
        links := links[i := Link(StringField(nodes, elem.value, LINK_PLATFORM), StringField(nodes, elem.value, LINK_URL))];
      }
    }
  }

  /** A Preferences table; an absent Privacy table leaves the zero flags. */
  method FlatBufferToPreferences(nodes: seq<Node>, off: Offset) returns (prefs: Preferences)
    ensures prefs == PreferencesOf(nodes, off)
  {
    prefs := Preferences(StringField(nodes, off, PREFERENCES_THEME), StringField(nodes, off, PREFERENCES_LANGUAGE),
                         NilDict, ZERO_PRIVACY);
    var notifications := ReadNotifications(nodes, off);
    prefs := prefs.(notifications := DictOf(notifications));
    var privacy := RefField(nodes, off, PREFERENCES_PRIVACY);
    if privacy != 0 {
      prefs := prefs.(privacy := PrivacySettings(BoolField(nodes, privacy, PRIVACY_PROFILE_PUBLIC),
                                                 BoolField(nodes, privacy, PRIVACY_EMAIL_VISIBLE),
                                                 BoolField(nodes, privacy, PRIVACY_SHOW_ACTIVITY)));
    }
  }

  /** A Profile table; an absent Preferences table leaves the zero preferences. */
  method FlatBufferToProfile(nodes: seq<Node>, off: Offset) returns (profile: Profile)
    ensures profile == ProfileOf(nodes, off)
  {
    profile := Profile(StringField(nodes, off, PROFILE_FIRST_NAME), StringField(nodes, off, PROFILE_LAST_NAME),
                       StringField(nodes, off, PROFILE_BIO), StringField(nodes, off, PROFILE_AVATAR),
                       NilSlice, ZERO_PREFERENCES);
    var links := ReadLinks(nodes, off);
    profile := profile.(socialLinks := SliceOf(links));
    var preferences := RefField(nodes, off, PROFILE_PREFERENCES);
    if preferences != 0 {
      var prefs := FlatBufferToPreferences(nodes, preferences);
      profile := profile.(preferences := prefs);
    }
  }

  /** A Settings table. */
  method FlatBufferToSettings(nodes: seq<Node>, off: Offset) returns (settings: Settings)
    ensures settings == SettingsOf(nodes, off)
  {
    settings := Settings(StringField(nodes, off, SETTINGS_LANGUAGE), StringField(nodes, off, SETTINGS_TIMEZONE),
                         NilSlice, NilDict);
    var features := ReadStrings(nodes, off, SETTINGS_FEATURES);
    settings := settings.(features := SliceOf(features));
    var limits := ReadLimits(nodes, off);
    settings := settings.(limits := DictOf(limits));
  }

  /** A User table; absent Profile and Settings tables leave zero values. */
  method FlatBufferToUser(nodes: seq<Node>, off: Offset) returns (user: User)
    ensures user == UserOf(nodes, off)
  {
    user := User(Int64Field(nodes, off, USER_ID), StringField(nodes, off, USER_NAME),
                 StringField(nodes, off, USER_EMAIL), Int32Field(nodes, off, USER_AGE),
                 BoolField(nodes, off, USER_IS_ACTIVE), Int64Field(nodes, off, USER_CREATED_AT),
                 NilSlice, ZERO_PROFILE, ZERO_SETTINGS, NilDict);
    var profileOffset := RefField(nodes, off, USER_PROFILE);
    if profileOffset != 0 {
      var profile := FlatBufferToProfile(nodes, profileOffset);
      user := user.(profile := profile);
    }
    var settingsOffset := RefField(nodes, off, USER_SETTINGS);
    if settingsOffset != 0 {
      var settings := FlatBufferToSettings(nodes, settingsOffset);
      user := user.(settings := settings);
    }
    var tags := ReadStrings(nodes, off, USER_TAGS);
    user := user.(tags := SliceOf(tags));
    var metadata := ReadMetadata(nodes, off);
    user := user.(metadata := DictOf(metadata));
  }

  // ---------------------------------------------------------------------
  // Entry points.

  /** Encodes one user as a UserList holding exactly that user. */
  method Marshal(u: User) returns (buf: Buffer)
    ensures WellFormed(buf.nodes)
    ensures UsersOf(buf) == [CollapseUser(u)]
  {
    var b := new Builder();
    var userOffset := UserToFlatBuffer(b, u);
    buf := FinishUserList(b, [userOffset]);
  }

  /**
   * The users vector (the offsets prepended from the last to the first)
   * and the UserList root table, which finish the buffer.
   */
  method FinishUserList(b: Builder, userOffsets: seq<Offset>) returns (buf: Buffer)
    requires b.Valid() && b.open == Idle
    requires forall i | 0 <= i < |userOffsets| :: 1 <= userOffsets[i] <= |b.nodes|
    modifies b
    ensures WellFormed(buf.nodes)
    ensures UsersOf(buf) == UserSeq(old(b.nodes), userOffsets)
  {
    ghost var built := b.nodes;
    var usersVector := BuildVector(b, userOffsets);
    b.StartObject(1);
    b.AddOffset(USER_LIST_USERS, usersVector);
    var userList := b.EndObject();
    buf := b.Finish(userList);
    UserListRead(buf, built, userOffsets);
  }

  /** The UserList table appended after its users and their vector reads back those users. */
  lemma UserListRead(buf: Buffer, built: seq<Node>, offs: seq<Offset>)
    requires WellFormed(buf.nodes) && forall i | 0 <= i < |offs| :: offs[i] <= |built|
    requires |buf.nodes| == |built| + 2 && built <= buf.nodes && buf.nodes[|built|] == Vector(offs)
    requires buf.root == |buf.nodes| && RefField(buf.nodes, buf.root, USER_LIST_USERS) == |built| + 1
    ensures UsersOf(buf) == UserSeq(built, offs)
  {
    assert VectorField(buf.nodes, buf.root, USER_LIST_USERS) == offs;
    UserSeqFrame(built, buf.nodes, offs);
  }

  /**
   * Decodes the first user of a UserList: an error when the list is empty,
   * otherwise its element 0.
   */
  method Unmarshal(buf: Buffer) returns (r: Result<User, DecodeError>)
    ensures r == Failure(NoUsers) <==> |UsersOf(buf)| == 0
    ensures r.Success? <==> |UsersOf(buf)| > 0
    ensures r.Success? ==> r.value == UsersOf(buf)[0]
  {
    if VectorLength(buf.nodes, buf.root, USER_LIST_USERS) == 0 {
      return Failure(NoUsers);
    }
    // the accessor fails only for an absent vector, whose length is 0
    match TableElement(buf.nodes, buf.root, USER_LIST_USERS, 0)
    case None => assert false;
    case Some(elem) =>
      var user := FlatBufferToUser(buf.nodes, elem);
      return Success(user);
  }

  /** Encodes the users, in order, as one UserList; a nil list encodes as an empty one. */
  method MarshalUsers(users: Slice<User>) returns (buf: Buffer)
    ensures WellFormed(buf.nodes)
    ensures UsersOf(buf) == CollapseUsers(users.Items())
  {
    var items := users.Items();
    var b := new Builder();
    var userOffsets: seq<Offset> := seq(|items|, _ => 0);
    for i := 0 to |items|
      invariant b.Valid() && b.open == Idle && |userOffsets| == |items|
      invariant forall j | 0 <= j < i :: 1 <= userOffsets[j] <= |b.nodes|
      invariant forall j | 0 <= j < i :: UserOf(b.nodes, userOffsets[j]) == CollapseUser(items[j])
    {
      ghost var before := b.nodes;
      var offset := UserToFlatBuffer(b, items[i]);
      forall j | 0 <= j < i ensures UserOf(b.nodes, userOffsets[j]) == CollapseUser(items[j]) {
        UserFrame(before, b.nodes, userOffsets[j]);
      }
      userOffsets := userOffsets[i := offset];
    }
    ghost var built := b.nodes;
    buf := FinishUserList(b, userOffsets);
    assert UserSeq(built, userOffsets) == CollapseUsers(items);
  }

  /** Decodes every user of a UserList, in order, into a non-nil slice. */
  method UnmarshalUsers(buf: Buffer) returns (r: Result<Slice<User>, DecodeError>)
    ensures r == Success(SliceOf(UsersOf(buf)))
  {
    var n := VectorLength(buf.nodes, buf.root, USER_LIST_USERS);
    var users: seq<User> := seq(n, _ => ZERO_USER);
    for i := 0 to n
      invariant |users| == n
      invariant forall j | 0 <= j < i :: users[j] == UsersOf(buf)[j]
    {
      // the accessor fails only for an absent vector, whose length is 0
      match TableElement(buf.nodes, buf.root, USER_LIST_USERS, i)
      case None => assert false;
      case Some(elem) =>
        var user := FlatBufferToUser(buf.nodes, elem);
        users := users[i := user];
    }
    assert users == UsersOf(buf);
    return Success(SliceOf(users));
  }

  /** Marshal followed by Unmarshal gives back the collapsed user. */
  method RoundTrip(u: User) returns (r: Result<User, DecodeError>)
    ensures r == Success(CollapseUser(u))
    ensures r == Success(u) <==> Representable(u)
  {
    var buf := Marshal(u);
    r := Unmarshal(buf);
    CollapseUserExact(u);
  }

  /** MarshalUsers followed by UnmarshalUsers gives back the collapsed users, in order. */
  method RoundTripUsers(users: Slice<User>) returns (r: Result<Slice<User>, DecodeError>)
    ensures r == Success(SliceOf(CollapseUsers(users.Items())))
  {
    var buf := MarshalUsers(users);
    r := UnmarshalUsers(buf);
  }
}
