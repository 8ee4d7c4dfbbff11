# go-serialization-benchmarks: a verified model of the serializers' core

This project models the conversion logic of the benchmark's FlatBuffers and
Protocol Buffers serializers, and its two statistics helpers. It proves what each
of them promises.

- **FlatBuffers serializer** (`internal/serializers/flatbuffers.go`). The encoders
  drive a builder strictly bottom-up. They create strings, child tables and
  vectors first, then open the parent table and write its fields. The builder is
  the class `FlatBuilder.Builder`. Its state is the sequence of finished nodes (an
  offset `k` names node `k`, and offset 0 is "absent") plus the frame that is open.
  Its preconditions are the nesting rules: nothing is created while a table or
  vector is open, and a table field refers only to finished nodes. So every encoder
  that verifies builds bottom-up. The decoders read through accessor functions with
  the format's defaults: an absent string reads as "", an absent vector as empty,
  an absent scalar as 0 or false. Every encoder's postcondition states that the
  decode of what it appended equals the collapsed input. Collapsing means:
  - nil collections become empty;
  - age and limits pass through int32;
  - metadata values collapse per tag.

  `FlatLayout.CollapseUserExact` says exactly which users survive unchanged.
- **Metadata values** (`TaggedValue`). A Go `interface{}` value is modelled as
  `Dyn`. It is written as a discriminant (string 0, int 1, bool 2, float 3) plus one
  value slot. It is read back by a switch on the discriminant, and an unknown
  discriminant reads the string slot.
- **Protocol Buffers struct mapping** (`internal/serializers/protobuf.go`). This
  covers:
  - the conversions between the Go structs and the generated protobuf structs;
  - the `isEmpty*` predicates that decide whether a nested message is set at all;
  - JSON text for metadata values;
  - the loops over user lists, which return the first error.

  `encoding/json` is a parameter: `Json`, a pair of possibly failing functions.
- **Statistics** (`internal/utils/stats.go`).
  - `CalculateAverage` sums in wrapping int64 arithmetic and divides with Go's
    truncating division.
  - `CalculateMedian` sorts a copy of its input.

Go's nil and empty collections differ. `Models.Slice` and `Models.Dict` keep
that difference (`NilSlice` / `SliceOf`, `NilDict` / `DictOf`). The model can then
state where a conversion turns one into the other.

Go map iteration order is unspecified. The encoders iterate maps by
nondeterministic choice (`var k :| k in rest`). `EntryMaps` proves that the
decoded map does not depend on the order chosen: each key appears once in the
vector, and rebuilding the map gives the original back.

## Model

| member | source | states |
|---|---|---|
| FlatBuilder.Builder.constructor | internal/serializers/flatbuffers.go:28 | A new builder holds no nodes and has nothing open. |
| FlatBuilder.Builder.CreateString | internal/serializers/flatbuffers.go:162-163 | Appends one string node and returns its offset; allowed only when nothing is open. |
| FlatBuilder.Builder.StartVector | internal/serializers/flatbuffers.go:37 | Opens an empty vector; allowed only when nothing is open. |
| FlatBuilder.Builder.PrependUOffsetT | internal/serializers/flatbuffers.go:81-83 | Puts an offset of a finished node in FRONT of the open vector's elements. |
| FlatBuilder.Builder.EndVector | internal/serializers/flatbuffers.go:84 | Closes the vector: appends it with its elements in prepend order, and the count must match. |
| FlatBuilder.Builder.StartObject | internal/serializers/flatbuffers.go:41 | Opens a table with no fields; allowed only when nothing is open. |
| FlatBuilder.Builder.AddOffset | internal/serializers/flatbuffers.go:168-169 | Sets a reference slot of the open table to an already finished node. |
| FlatBuilder.Builder.AddInt | internal/serializers/flatbuffers.go:167 | Sets an integer slot of the open table; no other slot and no node changes. |
| FlatBuilder.Builder.AddBool | internal/serializers/flatbuffers.go:171 | Sets a boolean slot of the open table. |
| FlatBuilder.Builder.AddFloat | internal/serializers/flatbuffers.go:362-365 | Sets a float64 slot; -0.0 is stored as the +0.0 a reader sees. |
| FlatBuilder.Builder.EndObject | internal/serializers/flatbuffers.go:43 | Closes the table: appends it with exactly the fields that were added. |
| FlatBuilder.Builder.Finish | internal/serializers/flatbuffers.go:45-46 | The finished buffer is the built nodes with the given table as root. |
| FlatBuilder.TableElement | internal/serializers/flatbuffers.go:417 | The element accessor gives the j-th element of a present vector for every j below its length. |
| FlatBuilder.ReadFrame | internal/serializers/flatbuffers.go:117-118 | Appending nodes never changes what an earlier offset reads, because references point backwards (bottom-up build). |
| TaggedValue.Encode | internal/serializers/flatbuffers.go:333-374 | The discriminant is 0-3 and agrees with the populated slot; string and unknown types use tag 0 with a string slot, and nil uses tag 0 with no string slot. |
| TaggedValue.Decode | internal/serializers/flatbuffers.go:420-431 | Int, bool and float results exactly for tags 1, 2, 3; a string for tag 0 and for any unknown tag. |
| TaggedValue.RoundTrip | internal/serializers/flatbuffers.go:333-374 | Per tag, decoding what was encoded gives the value back: ints through int32, float32 widened, -0.0 as +0.0, nil as "", other types as text. |
| TaggedValue.CollapseExact | internal/serializers/flatbuffers.go:420-431 | A value survives the round trip unchanged iff it is a string, an int32-range int, a bool or a float64 other than -0.0. |
| TaggedValue.DecodeReadsOnlyMatchingSlot | internal/serializers/flatbuffers.go:420-431 | The decoded value depends only on the slot its tag names; an unknown tag depends only on the string slot. |
| EntryMaps.MapOfKeys | internal/serializers/flatbuffers.go:416-434 | The decoded map's keys are exactly the keys of the vector's entries. |
| EntryMaps.MapOfLastWins | internal/serializers/flatbuffers.go:432 | Filling a map from a vector is last-write-wins: an entry not followed by its key again is the map's value. |
| EntryMaps.MapOfEnumeration | internal/serializers/flatbuffers.go:124-127 | A vector that lists every key of a map once, with its value, in any order, decodes to that map. |
| EntryMaps.MapOfSnoc | internal/serializers/flatbuffers.go:432 | Reading one more entry updates the map at that entry's key. |
| EntryMaps.EnumeratesExtend | internal/serializers/flatbuffers.go:124-127 | Appending an entry for a key not yet visited keeps the vector a one-per-key enumeration of the map. |
| FlatLayout.UserOf | internal/serializers/flatbuffers.go:377-437 | A decoded user never has nil tags or nil metadata, and has as many tags as the vector; an absent profile or settings table leaves the zero value. |
| FlatLayout.ProfileOf | internal/serializers/flatbuffers.go:440-471 | Decoded social links are never nil; a present preferences table decodes to non-nil notifications. |
| FlatLayout.PreferencesOf | internal/serializers/flatbuffers.go:474-502 | Decoded notifications are never nil. |
| FlatLayout.SettingsOf | internal/serializers/flatbuffers.go:505-529 | Decoded features and limits are never nil. |
| FlatLayout.UsersOf | internal/serializers/flatbuffers.go:96-101 | The buffer holds as many users as its users vector has elements. |
| FlatLayout.CollapseUserExact | internal/serializers/flatbuffers.go:377-437 | A user round-trips unchanged iff its collections are non-nil, age and limits fit int32, and every metadata value is representable. |
| FlatBuffersCodec.CollapseUsers | internal/serializers/flatbuffers.go:71-77 | Collapsing a user list keeps its length. |
| FlatBuffersCodec.BuildVector | internal/serializers/flatbuffers.go:128-132 | Prepending the offsets from last to first builds a vector holding them in their original order. |
| FlatBuffersCodec.CreateStrings | internal/serializers/flatbuffers.go:138-141 | Creates one string per item; the strings read back are the items, in order. |
| FlatBuffersCodec.StringsVector | internal/serializers/flatbuffers.go:136-147 | The vector of strings it builds reads back as exactly the given sequence. |
| FlatBuffersCodec.LinkToFlatBuffer | internal/serializers/flatbuffers.go:191-198 | The link table reads back as the link. |
| FlatBuffersCodec.LinksToFlatBuffer | internal/serializers/flatbuffers.go:190-199 | One link table per link; they read back as the links, in order. |
| FlatBuffersCodec.LinksVector | internal/serializers/flatbuffers.go:188-205 | The social-links vector reads back as exactly the links. |
| FlatBuffersCodec.NotificationToFlatBuffer | internal/serializers/flatbuffers.go:239-244 | The notification table reads back as the key and value. |
| FlatBuffersCodec.NotificationsToFlatBuffer | internal/serializers/flatbuffers.go:237-245 | Writes one entry per key of the map, in some order, each with its value. |
| FlatBuffersCodec.NotificationsVector | internal/serializers/flatbuffers.go:235-251 | The notifications vector decodes to exactly the map, whatever the iteration order. |
| FlatBuffersCodec.LimitToFlatBuffer | internal/serializers/flatbuffers.go:301-306 | The limit table reads back as the key and the value truncated to int32. |
| FlatBuffersCodec.LimitsToFlatBuffer | internal/serializers/flatbuffers.go:299-307 | Writes one entry per key, in some order, each holding its value truncated to int32. |
| FlatBuffersCodec.LimitsVector | internal/serializers/flatbuffers.go:297-313 | The limits vector decodes to the map with every value truncated to int32 and the same keys. |
| FlatBuffersCodec.PrivacySettingsToFlatBuffer | internal/serializers/flatbuffers.go:272-278 | The privacy table reads back as the three flags. |
| FlatBuffersCodec.PreferencesToFlatBuffer | internal/serializers/flatbuffers.go:233-269 | The preferences table decodes to the input with nil notifications made empty; notifications are wired only when non-empty; privacy is always wired. |
| FlatBuffersCodec.PreferencesTable | internal/serializers/flatbuffers.go:257-268 | Appends theme, language and the table whose slots hold them, the notifications vector and the privacy table. |
| FlatBuffersCodec.PreferencesRead | internal/serializers/flatbuffers.go:474-502 | Those nodes decode to the collapsed preferences. |
| FlatBuffersCodec.ProfileToFlatBuffer | internal/serializers/flatbuffers.go:186-230 | The profile table decodes to the collapsed profile; social links are wired only when non-empty; preferences are always wired. |
| FlatBuffersCodec.ProfileTable | internal/serializers/flatbuffers.go:214-229 | Appends the four strings and the table whose slots hold them, the links vector and the preferences table. |
| FlatBuffersCodec.ProfileRead | internal/serializers/flatbuffers.go:440-471 | Those nodes decode to the collapsed profile. |
| FlatBuffersCodec.SettingsToFlatBuffer | internal/serializers/flatbuffers.go:281-330 | The settings table decodes to the collapsed settings; features and limits are each wired only when non-empty. |
| FlatBuffersCodec.SettingsTable | internal/serializers/flatbuffers.go:316-329 | Appends language, timezone and the table whose slots hold them and the two vectors. |
| FlatBuffersCodec.SettingsRead | internal/serializers/flatbuffers.go:505-529 | Those nodes decode to the collapsed settings. |
| FlatBuffersCodec.MetadataEntryToFlatBuffer | internal/serializers/flatbuffers.go:333-374 | What a reader sees in the entry's slots is the tagged encoding of the value; the entry decodes to the key and the collapsed value. |
| FlatBuffersCodec.EntryTable | internal/serializers/flatbuffers.go:348-373 | Appends one entry table holding key, tag and the matching value slot. |
| FlatBuffersCodec.EntryRead | internal/serializers/flatbuffers.go:417-432 | That table decodes to the key and the collapsed value. |
| FlatBuffersCodec.MetadataToFlatBuffer | internal/serializers/flatbuffers.go:123-127 | Writes one entry per key of the metadata, in some order, each decoding to the collapsed value. |
| FlatBuffersCodec.MetadataVector | internal/serializers/flatbuffers.go:121-133 | The metadata vector decodes to the metadata with every value collapsed, whatever the iteration order. |
| FlatBuffersCodec.UserToFlatBuffer | internal/serializers/flatbuffers.go:117-183 | The user table decodes to the collapsed user (age through int32, CreatedAt as Unix nanoseconds); tags and metadata are wired only when non-empty. |
| FlatBuffersCodec.UserTable | internal/serializers/flatbuffers.go:162-182 | Appends name, email and the user table whose slots hold the scalars and all child offsets. |
| FlatBuffersCodec.UserRead | internal/serializers/flatbuffers.go:377-437 | Those nodes decode to the collapsed user. |
| FlatBuffersCodec.UserSlots | internal/serializers/flatbuffers.go:166-180 | The user table's slots hold the id, age truncated to int32, the flag, createdAt and the child offsets. |
| FlatBuffersCodec.AddVectorWhen | internal/serializers/flatbuffers.go:174-179 | A vector field is written only when its collection is non-empty; nothing else changes. |
| FlatBuffersSerializer.ReadStrings | internal/serializers/flatbuffers.go:408-411 | The loop reads every element of the string vector, in order. |
| FlatBuffersSerializer.ReadLinks | internal/serializers/flatbuffers.go:449-458 | The loop reads every link of the vector, in order. |
| FlatBuffersSerializer.ReadNotifications | internal/serializers/flatbuffers.go:481-489 | The loop builds the map the notification entries describe, last write winning. |
| FlatBuffersSerializer.ReadLimits | internal/serializers/flatbuffers.go:518-526 | The loop builds the map the limit entries describe, with values read as int32. |
| FlatBuffersSerializer.ReadMetadata | internal/serializers/flatbuffers.go:414-434 | The loop builds the map the metadata entries describe, each value decoded by its tag. |
| FlatBuffersSerializer.FlatBufferToPreferences | internal/serializers/flatbuffers.go:474-502 | The decoder method returns exactly the layout's reading of the preferences table. |
| FlatBuffersSerializer.FlatBufferToProfile | internal/serializers/flatbuffers.go:440-471 | The decoder method returns exactly the layout's reading of the profile table. |
| FlatBuffersSerializer.FlatBufferToSettings | internal/serializers/flatbuffers.go:505-529 | The decoder method returns exactly the layout's reading of the settings table. |
| FlatBuffersSerializer.FlatBufferToUser | internal/serializers/flatbuffers.go:377-437 | The decoder method returns exactly the layout's reading of the user table. |
| FlatBuffersSerializer.Marshal | internal/serializers/flatbuffers.go:27-47 | The buffer is a UserList holding exactly one user, the collapsed input. |
| FlatBuffersSerializer.FinishUserList | internal/serializers/flatbuffers.go:80-90 | Wrapping the user offsets in a UserList gives a buffer whose users are those tables, in order. |
| FlatBuffersSerializer.Unmarshal | internal/serializers/flatbuffers.go:50-63 | Fails with "no users" iff the list is empty; otherwise returns the first user. |
| FlatBuffersSerializer.MarshalUsers | internal/serializers/flatbuffers.go:66-92 | The buffer's users are the input users, collapsed, same length and same order. |
| FlatBuffersSerializer.UnmarshalUsers | internal/serializers/flatbuffers.go:95-114 | Always succeeds with a non-nil list holding every user of the buffer, in order. |
| FlatBuffersSerializer.RoundTrip | internal/serializers/flatbuffers.go:27-63 | Unmarshal after Marshal gives the collapsed user, and gives the user itself iff it is representable. |
| FlatBuffersSerializer.RoundTripUsers | internal/serializers/flatbuffers.go:66-114 | UnmarshalUsers after MarshalUsers gives the collapsed list, same length and order. |
| ProtobufMapping.IsEmptyProfile | internal/serializers/protobuf.go:314-317 | Empty means: the four strings are "", there are no social links, and the preferences are empty. |
| ProtobufMapping.IsEmptySettings | internal/serializers/protobuf.go:320-323 | Empty means: both strings are "", there are no features, and there are no limits. |
| ProtobufMapping.IsEmptyPreferences | internal/serializers/protobuf.go:326-329 | Empty means: both strings are "", there are no notifications, and privacy is empty. |
| ProtobufMapping.IsEmptyPrivacySettings | internal/serializers/protobuf.go:332-334 | Empty means: all three flags are false. |
| ProtobufMapping.EmptyPrivacyIsZero | internal/serializers/protobuf.go:332-334 | Privacy settings are empty iff they equal the zero value. |
| ProtobufMapping.EmptyDict | internal/serializers/protobuf.go:321-322 | A map has length 0 iff it has no entries, nil or not. |
| ProtobufMapping.EmptyPreferencesIsZero | internal/serializers/protobuf.go:326-329 | Preferences are empty iff, up to nil-vs-empty, they equal the zero value. |
| ProtobufMapping.EmptyProfileIsZero | internal/serializers/protobuf.go:314-317 | A profile is empty iff, up to nil-vs-empty, it equals the zero value. |
| ProtobufMapping.EmptySettingsIsZero | internal/serializers/protobuf.go:320-323 | Settings are empty iff, up to nil-vs-empty, they equal the zero value. |
| ProtobufMapping.PrivacyToProto | internal/serializers/protobuf.go:248-254 | No privacy message is set iff the settings are the zero value. |
| ProtobufMapping.PrivacyFromProto | internal/serializers/protobuf.go:268-274 | An unset privacy message decodes to the zero value. |
| ProtobufMapping.PrivacyRoundTrip | internal/serializers/protobuf.go:240-277 | Privacy settings round-trip exactly, set or not. |
| ProtobufMapping.ConvertPreferencesToProto | internal/serializers/protobuf.go:240-257 | The notifications map is carried as it is; privacy is unset iff empty. |
| ProtobufMapping.ConvertPreferencesFromProto | internal/serializers/protobuf.go:260-277 | The notifications map is carried as it is; unset privacy decodes to zero. |
| ProtobufMapping.PreferencesRoundTrip | internal/serializers/protobuf.go:240-277 | Preferences round-trip exactly. |
| ProtobufMapping.EncodeLinks | internal/serializers/protobuf.go:185-193 | Same length, element by element, and nil when there are no links. |
| ProtobufMapping.DecodeLinks | internal/serializers/protobuf.go:217-225 | Same length, element by element, and nil when there are no links. |
| ProtobufMapping.LinksRoundTrip | internal/serializers/protobuf.go:185-225 | Links round-trip exactly when there are some; no links decode to nil. |
| ProtobufMapping.ConvertProfileToProto | internal/serializers/protobuf.go:176-205 | The loop fills the links element by element; preferences are set only when not empty. |
| ProtobufMapping.ConvertProfileFromProto | internal/serializers/protobuf.go:208-237 | The loop fills the links element by element; unset preferences decode to zero. |
| ProtobufMapping.ProfileRoundTrip | internal/serializers/protobuf.go:176-237 | A non-empty profile round-trips up to nil-vs-empty collapses (empty links and absent preferences). |
| ProtobufMapping.CollapseProfileSettles | internal/serializers/protobuf.go:185-237 | What a profile loses in the round trip is only nil-vs-empty. |
| ProtobufMapping.EncodeLimits | internal/serializers/protobuf.go:282-285 | Same keys, each value truncated to int32. |
| ProtobufMapping.DecodeLimits | internal/serializers/protobuf.go:298-301 | Same keys, each value unchanged. |
| ProtobufMapping.ConvertSettingsToProto | internal/serializers/protobuf.go:280-293 | The map loop produces the int32 limits map; the other fields are carried as they are. |
| ProtobufMapping.ConvertSettingsFromProto | internal/serializers/protobuf.go:296-309 | The map loop widens every limit back; the other fields are carried as they are. |
| ProtobufMapping.SettingsRoundTrip | internal/serializers/protobuf.go:280-309 | Non-empty settings round-trip with limits truncated to int32 and limits never nil. |
| ProtobufMapping.CollapseSettingsSettles | internal/serializers/protobuf.go:282-301 | With int32-range limits, settings lose only nil-vs-empty. |
| ProtobufMapping.EncodeMetadata | internal/serializers/protobuf.go:85-92 | The JSON text map has exactly the metadata's keys. |
| ProtobufMapping.DecodeMetadata | internal/serializers/protobuf.go:134-141 | The decoded map has exactly the text map's keys. |
| ProtobufMapping.MetadataToProto | internal/serializers/protobuf.go:85-92 | Succeeds iff every value marshals, with each value's JSON text; otherwise fails with some key's marshal error. |
| ProtobufMapping.MetadataFromProto | internal/serializers/protobuf.go:134-141 | Succeeds iff every text unmarshals, with each decoded value; otherwise fails with some key's unmarshal error. |
| ProtobufMapping.MetadataRoundTrip | internal/serializers/protobuf.go:85-141 | When JSON round-trips each value, the metadata round-trips exactly. |
| ProtobufMapping.DecodeUser | internal/serializers/protobuf.go:127-173 | A missing timestamp gives the zero time; a missing profile or settings message gives the zero value. |
| ProtobufMapping.ConvertUserToProto | internal/serializers/protobuf.go:83-124 | Succeeds iff the metadata marshals; the message then holds age as int32, the timestamp, and profile and settings only when not empty. |
| ProtobufMapping.ConvertUserFromProto | internal/serializers/protobuf.go:127-173 | Succeeds iff the metadata unmarshals; the user is then the message's decoding. |
| ProtobufMapping.UserRoundTrip | internal/serializers/protobuf.go:83-173 | When JSON round-trips the metadata, a user round-trips to its collapsed form. |
| ProtobufMapping.CollapseUserExact | internal/serializers/protobuf.go:83-173 | The struct mapping round trip (no wire call, with a JSON codec that round-trips the metadata) is exact iff age and limits fit int32, metadata is non-nil, an empty profile, preferences or settings is exactly the zero value, a non-empty profile's links are not an empty non-nil list, and non-empty settings have non-nil limits. |
| ProtobufMapping.CollapseUserSettles | internal/serializers/protobuf.go:83-173 | With int32-range age and limits, a user loses only nil-vs-empty in the round trip. |
| ProtobufMapping.MarshalUsers | internal/serializers/protobuf.go:47-61 | Succeeds iff every user converts, with one message per user in order; otherwise fails with the first failing user's error, every earlier user having converted. |
| ProtobufMapping.UnmarshalUsers | internal/serializers/protobuf.go:64-80 | Succeeds iff every message converts, with a non-nil list of the same length in order; otherwise fails with the first failing message's error and no partial list. |
| Stats.Average | internal/utils/stats.go:6-15 | The average of no values is 0. |
| Stats.CalculateAverage | internal/utils/stats.go:6-15 | The loop computes the wrapping int64 sum divided by the count, truncated toward zero; 0 for no values. |
| Stats.QuotByCount | internal/utils/stats.go:14 | Dividing by a positive count never increases the magnitude, so the quotient stays within int64. |
| Stats.SumWithin | internal/utils/stats.go:11-13 | The sum of values in [lo, hi] lies between lo and hi times the count. |
| Stats.AverageWithin | internal/utils/stats.go:6-15 | When the sum does not overflow, the average lies between the least and greatest bounds of the values. |
| Stats.Insert | internal/utils/stats.go:26 | Inserting keeps the multiset and the sortedness. |
| Stats.Sort | internal/utils/stats.go:26 | The sort is sorted and a permutation of its input. |
| Stats.SortedUnique | internal/utils/stats.go:26 | Two sorted permutations of the same values are equal, so the median does not depend on the sort chosen. |
| Stats.InsertionSort | internal/utils/stats.go:26 | Sorts the array in place, keeping its multiset of values. |
| Stats.Median | internal/utils/stats.go:18-33 | The median of no values is 0. |
| Stats.SortedCopy | internal/utils/stats.go:23-26 | The copy is a fresh array holding the sorted values; the input array is not changed. |
| Stats.CalculateMedian | internal/utils/stats.go:18-33 | 0 for no values; otherwise the middle of the sorted copy for odd n, and the truncated half of the wrapping sum of the two middle values for even n. |
| Stats.MedianPermutation | internal/utils/stats.go:18-33 | The median depends only on the multiset of values, not on their order. |
| Stats.MedianOfSorted | internal/utils/stats.go:28-32 | For sorted input the median is the middle element, or the truncated mean of the two middle ones. |
| Stats.MedianOddIsSample | internal/utils/stats.go:32 | For an odd count the median is one of the values. |
| Stats.MedianWithin | internal/utils/stats.go:18-33 | The median of values in [lo, hi] lies in [lo, hi]; for an even count the two middle sorted values must sum within int64, and for an odd count there is no condition. |
| Stats.SortWithin | internal/utils/stats.go:26 | Sorting keeps every value within the bounds the values lie in. |
| Stats.MiddleWithin | internal/utils/stats.go:28-32 | The middle of sorted values in [lo, hi] lies in [lo, hi] when the middle pair sums within int64. |
| GoInts.Wrap32 | internal/serializers/flatbuffers.go:170 | The int32 conversion keeps the value modulo 2^32, in the signed range, and leaves int32 values unchanged. |
| GoInts.Wrap64 | internal/utils/stats.go:12 | int64 arithmetic keeps the value modulo 2^64, in the signed range, and leaves int64 values unchanged. |
| GoInts.Quot | internal/utils/stats.go:14 | Go's division truncates toward zero: the remainder is smaller than the divisor and has the dividend's sign. |

## Behaviour of the code worth knowing

- Decode errors. An absent Profile, Settings, Preferences or Privacy table
  leaves the zero value, and an absent vector reads as empty. The only decode
  error the FlatBuffers serializer can return on a finished buffer is "no users
  in flatbuffer data" (`FlatBuffersSerializer.Unmarshal`).
- Encoding cannot fail. The Go builder grows its buffer and never returns an
  error, so every FlatBuffers encoder's error result is always nil, and
  `Marshal` and `MarshalUsers` have no error path here.
- Metadata values. Any Go value is accepted. A Go `int` is written through
  `int32(v)`, a float32 is widened to float64, nil is written with tag 0 and no
  string and reads back as "", and any other type is written as its `%v` text.
- Round trips. In the FlatBuffers serializer, a nil tag list, feature list,
  social-link list, notification map, limit map or metadata map decodes to an
  empty non-nil one. In the protobuf struct mapping, an empty social-link list
  decodes to nil, a nil metadata or limit map to an empty one, and an empty
  nested struct to its zero value. In both, ages and limits outside int32 are
  truncated. `FlatLayout.CollapseUserExact` and `ProtobufMapping.CollapseUserExact`
  state exactly which users come back unchanged.

## Left out

- Byte layout. Vtables, alignment, little-endian encoding and the buffer's bytes
  are not modelled. The builder is abstract: a sequence of finished nodes, where a
  reference names an earlier node.
- Omitted defaults. Go's FlatBuffers builder omits a scalar slot equal to its
  default. The model's builder records every Add. Every accessor returns the
  default for an absent slot, so no reader can tell the difference. The one visible
  effect, -0.0 in a float slot reading back as +0.0, is modelled in
  `FlatBuilder.Builder.AddFloat`.
- Malformed buffers. Buffers are only built by the builder, so the decoders'
  behaviour on corrupt bytes is not modelled. The `if !userList.Users(...)` branches
  (flatbuffers.go:58 and 102) and the `if X(obj, i)` guards in the decode loops can
  only fail on such buffers. Those guards are `FlatBuilder.TableElement` returning
  None.
- Floats. Floating-point values are uninterpreted 64-bit patterns (float32 as the
  pattern of its exact float64 widening). No float arithmetic is modelled.
- Text of other types. Metadata values of other types are modelled by their
  already rendered `%v` text (`Dyn.DOther`). The `%T` and `%v` formatting is not
  modelled.
- Timestamps. `time.Time` is modelled as int64 Unix nanoseconds, with the zero
  time as 0. Go's zero `time.Time` is not Unix 0, and this model does not tell them
  apart. The protobuf Timestamp's seconds/nanos split is left out:
  `timestamppb.New` and `AsTime` are taken to carry the nanosecond value unchanged.
- Wire formats. `proto.Marshal`, `proto.Unmarshal` and their errors are not
  modelled. Of the protobuf `Marshal` and `Unmarshal` (protobuf.go:29-44) only
  the conversion steps are modelled, by `ProtobufMapping.ConvertUserToProto` and
  `ProtobufMapping.ConvertUserFromProto`. The user-list methods are modelled
  without the wire call.
- ProtobufMapping.CollapseUserExact: states when the struct mapping alone
  round-trips a user. The wire format in addition decodes every empty repeated
  or map field as nil: empty non-nil tags, features, social links, notifications,
  limits or metadata come back nil from the real serializer. So a user that is
  `Representable` there can still change in a full Marshal/Unmarshal.
- JSON. `encoding/json` is the parameter `Json`, a pair of functions that may
  fail. The round-trip lemmas require `JsonRoundTrips`. `encoding/json` does not
  meet it for any int value, which comes back as float64. So those lemmas say
  nothing about metadata holding ints; the conversion methods still cover them.
- Nil messages. Nil elements inside a protobuf message's social-link list
  or user list are not modelled: the generated structs are values here.
- Errors that are always nil. The Preferences, Profile and Settings converters of
  both serializers have them, and so do the FlatBuffers encoders. These methods are
  modelled without an error result.
- Sorting. `slices.Sort` is modelled by an in-place insertion sort. Any correct
  sort gives the same result (`Stats.SortedUnique`), so the median does not depend
  on the algorithm.
- Stats.AverageWithin: the bound holds only when the int64 sum does not
  overflow. With overflow the Go code returns the wrapped sum divided by the count,
  which `Stats.CalculateAverage` models exactly.
- Stats.MedianWithin: for an even count, the bound is proved only when the two
  middle sorted values sum within int64. Otherwise that branch wraps, as modelled
  by `Stats.CalculateMedian`. For an odd count there is no condition.
- Other packages. The `Serializer` interface, the other serializers, the
  benchmark driver and `internal/models` are not part of this model. The model's
  own `Models` module restates the record types.
