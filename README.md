# libmtg-scryfall, modelled in Dafny

libmtg-scryfall adapts Scryfall's card database to the `emi.lib.mtg` card
library. It reads the raw records Scryfall publishes (card printings, their
faces and their sets), keeps them in a local data file, and normalises them
into a graph: cards made of faces, printings of those cards in sets, and
printed faces. This project models the core of that graph-building code and
proves properties of the model:

- **Enum codec** (`api_enum.dfy` and one file per enum table). Serialised
  names are looked up case-insensitively with underscores stripped, and
  unknown names fall back to an "unrecognized" constant.
- **Field fallbacks and identities** (`util.dfy`, `api_card.dfy`, `face.dfy`,
  `card_id.dfy`). These cover null defaults, the rule that choosing between
  a face and its card depends on the face entry existing, the oracle id
  shared by all faces, face equality, and the name-based card ids.
- **Collector numbers and variation** (`collector_number.dfy`, `print.dfy`).
  There are four number dialects with a tiered comparator. A print's
  1-based variation rank among same-set prints is memoised, and the
  printed-face registry is filled by `addFace`.
- **The card factory** (`card_factory.dfy`, `printing.dfy`,
  `printed_face.dfy`, `scryfall_set.dfy`). Records are dispatched by layout
  to builders. Each builder gets or creates the card, face, set, printing
  and printed face in identity-keyed registries, and removes the records it
  uses from the pending map. Melded cards share one back face.
- **The data source** (`data_source.dfy`). `update()` filters and cleans
  each record it writes to the data file. `loadData()` reads the file back
  and drains the pending records through the factory until none is left.
  A record the factory fails on is dropped and the loop goes on.
- **The older card class** (`legacy_card.dfy`). It builds its faces per
  layout, and its faces compute their colours once.
- **Collection views** (`ordered_map.dfy`, `mirror_map.dfy`,
  `mirror_set.dfy`, `filtered_bi_map.dfy`, `paged_list.dfy`). These are live
  views over a backing map, and a list over API pages keyed by start
  offset.
- **Data-file formats** (`serde_protocol.dfy`, `json_serde.dfy`,
  `message_pack_serde.dfy`, `serde_factory.dfy`). These are the
  Inactive → Header → Sets → Cards → Footer protocol of both formats.
  MessagePack adds its entry countdowns and packs card ids as two longs.

How Java is modelled:

- A nullable reference is `Option`.
- A thrown exception is the `Err` of a `Result`, whose error says the kind
  (NullPointerException, illegal state, I/O and so on).
- Java `assert` statements are disabled, as they are by default on the JVM.
- Objects whose fields the source updates in place are classes.
- Records and other values are datatypes.
- Streams (the Gson token stream and the MessagePack value stream) are
  sequences of tokens.
- Functions from libraries that are not part of this model are parameters.
  These are `UUID.nameUUIDFromBytes`, `UUID.toString`, the mana-cost and
  type-line parsers, and a parsed mana cost's colours. Each is
  deterministic.

## Model

| member | source | states |
|---|---|---|
| Util.OrMeaning | src/main/java/emi/lib/mtg/scryfall/Util.java:11-25 | `or` gives the value when there is one; it gives the default exactly when the value is null or equals the default; `orEmpty` gives the empty set for null |
| Util.MapColorMeaning | src/main/java/emi/lib/mtg/scryfall/Util.java:27-29 | a library colour is in `mapColor`'s result exactly when an API colour of the input maps to it; null maps to the empty combination |
| Util.MapColorUnion | src/main/java/emi/lib/mtg/scryfall/Util.java:27-29 | `mapColor` distributes over union and is monotone under inclusion |
| Util.MapColorKeepsNames | src/main/java/emi/lib/mtg/scryfall/Util.java:27-29 | each of the five API colours is translated to the library colour of the same name |
| Util.MapRarityMeaning | src/main/java/emi/lib/mtg/scryfall/Util.java:31-38 | `mapRarity` is BasicLand exactly when the type line contains "Basic Land"; otherwise it throws exactly when the rarity is null, and is null exactly for the unrecognised rarity (the assert is disabled) |
| ApiEnum.RevMap | src/main/java/emi/lib/mtg/scryfall/api/enums/ApiEnum.java:30-31 | the reverse map is built exactly when the lowercased keys are distinct, and then holds every constant under its key; a repeated key throws IllegalStateException |
| ApiEnum.DistinctKeysSnoc | src/main/java/emi/lib/mtg/scryfall/api/enums/ApiEnum.java:30-31 | appending a constant keeps the keys distinct exactly when its key is new |
| ApiEnum.Serialization.RevMapRaw | src/main/java/emi/lib/mtg/scryfall/api/enums/ApiEnum.java:26-39 | returns the reverse map of the constants; a successfully built map is cached and the cache is otherwise unchanged |
| ApiEnum.NormaliseTwoWords | src/main/java/emi/lib/mtg/scryfall/api/enums/ApiEnum.java:75-78 | a lower-case text of two words joined by "_" normalises to the words run together |
| ApiEnum.NormaliseThreeWords | src/main/java/emi/lib/mtg/scryfall/api/enums/ApiEnum.java:75-78 | the same for three words |
| ApiEnum.ReadNonText | src/main/java/emi/lib/mtg/scryfall/api/enums/ApiEnum.java:71-82 | `read` of JSON null is null and leaves the reader standing on the null, unconsumed; any other token that is neither a name nor a string throws IOException |
| ApiEnum.ReadKnown | src/main/java/emi/lib/mtg/scryfall/api/enums/ApiEnum.java:69-90 | `read` of a name or string whose normalised text is a constant's key gives that constant |
| ApiEnum.ReadKnownText | src/main/java/emi/lib/mtg/scryfall/api/enums/ApiEnum.java:74-89 | both a NAME and a STRING token decode to the constant whose key is their normalised text |
| ApiEnum.ReadUnknown | src/main/java/emi/lib/mtg/scryfall/api/enums/ApiEnum.java:84-87 | a text that is no constant's key decodes to the "unrecognized" entry, which may be null |
| ApiEnum.ReadWriteRoundTrip | src/main/java/emi/lib/mtg/scryfall/api/enums/ApiEnum.java:60-90 | `read(write(e)) == e` for null and for every constant whose key has no "_"; read from a stream, a written constant is consumed but a written null is left unread |
| ApiEnum.ReadWriteRoundTripIntended | src/main/java/emi/lib/mtg/scryfall/api/enums/ApiEnum.java:60-90 | with a `read` that consumes the null, the reader moves past exactly the one token `write` wrote, for null as for every constant |
| ApiEnum.OrUnrecognizedMeaning | src/main/java/emi/lib/mtg/scryfall/api/enums/ApiEnum.java:41-44 | `orUnrecognized` gives the constant whose key is the lowercased name, and otherwise the "unrecognized" entry |
| ApiEnum.UnknownName | src/main/java/emi/lib/mtg/scryfall/api/enums/ApiEnum.java:41-44 | a name that is no constant's key gives the same fallback through `orUnrecognized` and through `read` |
| ApiEnum.AdapterEntry | src/main/java/emi/lib/mtg/scryfall/api/enums/ApiEnum.java:55-56 | the adapter's reverse map holds every constant under its key |
| ApiEnum.DistinctKeysOfInjective | src/main/java/emi/lib/mtg/scryfall/api/enums/ApiEnum.java:30-31 | an enum whose constants are distinct and whose keys are injective builds its reverse map without a clash |
| ApiEnum.OrUnrecognized | src/main/java/emi/lib/mtg/scryfall/api/enums/ApiEnum.java:41-44 | `orUnrecognized` throws IllegalStateException exactly when the reverse map cannot be built; otherwise it gives a constant whose key is the lowercased name, or, when no key is, the "unrecognized" entry |
| ApiEnum.MakeAdapter | src/main/java/emi/lib/mtg/scryfall/api/enums/ApiEnum.java:55-56 | creating the adapter throws exactly when the keys repeat; otherwise its map holds every constant under its key and nothing else, and its fallback is the map's "unrecognized" entry |
| ApiEnum.Read | src/main/java/emi/lib/mtg/scryfall/api/enums/ApiEnum.java:69-90 | `read` throws IOException exactly for a token that is neither null, a name nor a string; null reads as null; a text that does not give the fallback gives the reverse map's constant under its normalised key (where the reader is left is ReadAt's contract) |
| ApiEnum.ReadAt | src/main/java/emi/lib/mtg/scryfall/api/enums/ApiEnum.java:69-90 | `read` on a token stream: it throws IOException exactly at the end or on a token that is neither null, a name nor a string; otherwise it gives Read's value, moves past a name or string, and stays on a null, which it does not consume |
| ApiEnum.ReadAtIntended | src/main/java/emi/lib/mtg/scryfall/api/enums/ApiEnum.java:72-73 | `read` with the null consumed by `nextNull()`: the same value, and the reader always moves past exactly one token |
| ApiEnum.NullFieldLeftUnread | src/main/java/emi/lib/mtg/scryfall/api/enums/ApiEnum.java:72-73 | reading the value of an object field `"layout": null` leaves the reader on the null, not on the next field's name; the intended read moves on to that name |
| ApiEnum.Write | src/main/java/emi/lib/mtg/scryfall/api/enums/ApiEnum.java:60-66 | `write` emits JSON null exactly for null, and otherwise a string holding the constant's serialised form |
| ApiCard.OracleId | src/main/java/emi/lib/mtg/scryfall/api/Card.java:117-131 | `oracleId()` returns the oracle id its loop over the faces finds (or the exception it throws), and the record comes back with that id cached only after a successful search |
| ApiCard.OracleIdMeaning | src/main/java/emi/lib/mtg/scryfall/api/Card.java:117-131 | with an own oracle id that id is returned; without one the answer is u exactly when there are faces and every face carries u; a null face list throws |
| ApiCard.OracleIdMemoised | src/main/java/emi/lib/mtg/scryfall/api/Card.java:117-127 | after one successful call the answer is served from the field: a second call returns the same id and caches nothing new |
| BorderColorEnum.KeyInjective | src/main/java/emi/lib/mtg/scryfall/api/enums/BorderColor.java:11-14 | two constants with the same lowercased serialised form are the same constant |
| BorderColorEnum.DistinctKeys | src/main/java/emi/lib/mtg/scryfall/api/enums/BorderColor.java:3-15 | the lowercased serialised forms are pairwise distinct, so the reverse map and the type adapter are built without an exception |
| BorderColorEnum.RoundTrip | src/main/java/emi/lib/mtg/scryfall/api/enums/BorderColor.java:3-15 | the adapter reads back every constant it writes: `read(write(c)) == c` |
| BorderColorEnum.Decodes | src/main/java/emi/lib/mtg/scryfall/api/enums/BorderColor.java:3-15 | a text whose lowercased, underscore-free form is a constant's key decodes to that constant, as a name and as a string |
| BorderColorEnum.UnrecognizedKey | src/main/java/emi/lib/mtg/scryfall/api/enums/BorderColor.java:3-15 | the Unrecognized constant's key is "unrecognized" |
| BorderColorEnum.AdapterFallsBackToUnrecognized | src/main/java/emi/lib/mtg/scryfall/api/enums/BorderColor.java:3-15 | the adapter's fallback for an unknown name is the Unrecognized constant |
| BorderColorEnum.UnknownIsUnrecognized | src/main/java/emi/lib/mtg/scryfall/api/enums/BorderColor.java:3-15 | a name that is no constant's key gives Unrecognized through `orUnrecognized` and through `read` |
| BulkDataTypeEnum.KeyInjective | src/main/java/emi/lib/mtg/scryfall/api/enums/BulkDataType.java:12-15 | two constants with the same lowercased serialised form are the same constant |
| BulkDataTypeEnum.DistinctKeys | src/main/java/emi/lib/mtg/scryfall/api/enums/BulkDataType.java:3-16 | the lowercased serialised forms are pairwise distinct, so the reverse map and the type adapter are built without an exception |
| BulkDataTypeEnum.RoundTrip | src/main/java/emi/lib/mtg/scryfall/api/enums/BulkDataType.java:3-16 | the adapter reads back every constant it writes: `read(write(c)) == c` |
| BulkDataTypeEnum.Decodes | src/main/java/emi/lib/mtg/scryfall/api/enums/BulkDataType.java:3-16 | a text whose lowercased, underscore-free form is a constant's key decodes to that constant, as a name and as a string |
| BulkDataTypeEnum.UnrecognizedKey | src/main/java/emi/lib/mtg/scryfall/api/enums/BulkDataType.java:3-16 | the Unrecognized constant's key is "unrecognized" |
| BulkDataTypeEnum.AdapterFallsBackToUnrecognized | src/main/java/emi/lib/mtg/scryfall/api/enums/BulkDataType.java:3-16 | the adapter's fallback for an unknown name is the Unrecognized constant |
| BulkDataTypeEnum.UnknownIsUnrecognized | src/main/java/emi/lib/mtg/scryfall/api/enums/BulkDataType.java:3-16 | a name that is no constant's key gives Unrecognized through `orUnrecognized` and through `read` |
| CardFrameEnum.KeyInjective | src/main/java/emi/lib/mtg/scryfall/api/enums/CardFrame.java:25-28 | two constants with the same lowercased serialised form are the same constant |
| CardFrameEnum.DistinctKeys | src/main/java/emi/lib/mtg/scryfall/api/enums/CardFrame.java:5-29 | the lowercased serialised forms are pairwise distinct, so the reverse map and the type adapter are built without an exception |
| CardFrameEnum.RoundTrip | src/main/java/emi/lib/mtg/scryfall/api/enums/CardFrame.java:5-29 | the adapter reads back every constant it writes: `read(write(c)) == c` |
| CardFrameEnum.Decodes | src/main/java/emi/lib/mtg/scryfall/api/enums/CardFrame.java:5-29 | a text whose lowercased, underscore-free form is a constant's key decodes to that constant, as a name and as a string |
| CardFrameEnum.UnrecognizedKey | src/main/java/emi/lib/mtg/scryfall/api/enums/CardFrame.java:5-29 | the Unrecognized constant's key is "unrecognized" |
| CardFrameEnum.AdapterFallsBackToUnrecognized | src/main/java/emi/lib/mtg/scryfall/api/enums/CardFrame.java:5-29 | the adapter's fallback for an unknown name is the Unrecognized constant |
| CardFrameEnum.UnknownIsUnrecognized | src/main/java/emi/lib/mtg/scryfall/api/enums/CardFrame.java:5-29 | a name that is no constant's key gives Unrecognized through `orUnrecognized` and through `read` |
| CardLayoutEnum.KeyInjective | src/main/java/emi/lib/mtg/scryfall/api/enums/CardLayout.java:29-32 | two constants with the same lowercased serialised form are the same constant |
| CardLayoutEnum.DistinctKeys | src/main/java/emi/lib/mtg/scryfall/api/enums/CardLayout.java:3-33 | the lowercased serialised forms are pairwise distinct, so the reverse map and the type adapter are built without an exception |
| CardLayoutEnum.RoundTrip | src/main/java/emi/lib/mtg/scryfall/api/enums/CardLayout.java:3-33 | the adapter reads back every constant it writes: `read(write(c)) == c` |
| CardLayoutEnum.Decodes | src/main/java/emi/lib/mtg/scryfall/api/enums/CardLayout.java:3-33 | a text whose lowercased, underscore-free form is a constant's key decodes to that constant, as a name and as a string |
| CardLayoutEnum.UnrecognizedKey | src/main/java/emi/lib/mtg/scryfall/api/enums/CardLayout.java:3-33 | the Unrecognized constant's key is "unrecognized" |
| CardLayoutEnum.AdapterFallsBackToUnrecognized | src/main/java/emi/lib/mtg/scryfall/api/enums/CardLayout.java:3-33 | the adapter's fallback for an unknown name is the Unrecognized constant |
| CardLayoutEnum.UnknownIsUnrecognized | src/main/java/emi/lib/mtg/scryfall/api/enums/CardLayout.java:3-33 | a name that is no constant's key gives Unrecognized through `orUnrecognized` and through `read` |
| ColorEnum.KeyInjective | src/main/java/emi/lib/mtg/scryfall/api/enums/Color.java:11-27 | two constants with the same lowercased serialised form are the same constant |
| ColorEnum.DistinctKeys | src/main/java/emi/lib/mtg/scryfall/api/enums/Color.java:3-28 | the lowercased serialised forms are pairwise distinct, so the reverse map and the type adapter are built without an exception |
| ColorEnum.RoundTrip | src/main/java/emi/lib/mtg/scryfall/api/enums/Color.java:3-28 | the adapter reads back every constant it writes: `read(write(c)) == c` |
| ColorEnum.Decodes | src/main/java/emi/lib/mtg/scryfall/api/enums/Color.java:3-28 | a text whose lowercased, underscore-free form is a constant's key decodes to that constant, as a name and as a string |
| FinishEnum.KeyInjective | src/main/java/emi/lib/mtg/scryfall/api/enums/Finish.java:10-13 | two constants with the same lowercased serialised form are the same constant |
| FinishEnum.DistinctKeys | src/main/java/emi/lib/mtg/scryfall/api/enums/Finish.java:3-14 | the lowercased serialised forms are pairwise distinct, so the reverse map and the type adapter are built without an exception |
| FinishEnum.RoundTrip | src/main/java/emi/lib/mtg/scryfall/api/enums/Finish.java:3-14 | the adapter reads back every constant it writes: `read(write(c)) == c` |
| FinishEnum.Decodes | src/main/java/emi/lib/mtg/scryfall/api/enums/Finish.java:3-14 | a text whose lowercased, underscore-free form is a constant's key decodes to that constant, as a name and as a string |
| FinishEnum.UnrecognizedKey | src/main/java/emi/lib/mtg/scryfall/api/enums/Finish.java:3-14 | the Unrecognized constant's key is "unrecognized" |
| FinishEnum.AdapterFallsBackToUnrecognized | src/main/java/emi/lib/mtg/scryfall/api/enums/Finish.java:3-14 | the adapter's fallback for an unknown name is the Unrecognized constant |
| FinishEnum.UnknownIsUnrecognized | src/main/java/emi/lib/mtg/scryfall/api/enums/Finish.java:3-14 | a name that is no constant's key gives Unrecognized through `orUnrecognized` and through `read` |
| GameFormatEnum.KeyInjective | src/main/java/emi/lib/mtg/scryfall/api/enums/GameFormat.java:45-61 | two constants with the same lowercased serialised form are the same constant |
| GameFormatEnum.DistinctKeys | src/main/java/emi/lib/mtg/scryfall/api/enums/GameFormat.java:9-66 | the lowercased serialised forms are pairwise distinct, so the reverse map and the type adapter are built without an exception |
| GameFormatEnum.RoundTrip | src/main/java/emi/lib/mtg/scryfall/api/enums/GameFormat.java:9-66 | the adapter reads back every constant it writes: `read(write(c)) == c` |
| GameFormatEnum.Decodes | src/main/java/emi/lib/mtg/scryfall/api/enums/GameFormat.java:9-66 | a text whose lowercased, underscore-free form is a constant's key decodes to that constant, as a name and as a string |
| GameFormatEnum.UnrecognizedKey | src/main/java/emi/lib/mtg/scryfall/api/enums/GameFormat.java:9-66 | the Unrecognized constant's key is "unrecognized" |
| GameFormatEnum.AdapterFallsBackToUnrecognized | src/main/java/emi/lib/mtg/scryfall/api/enums/GameFormat.java:9-66 | the adapter's fallback for an unknown name is the Unrecognized constant |
| GameFormatEnum.UnknownIsUnrecognized | src/main/java/emi/lib/mtg/scryfall/api/enums/GameFormat.java:9-66 | a name that is no constant's key gives Unrecognized through `orUnrecognized` and through `read` |
| LegalityEnum.KeyInjective | src/main/java/emi/lib/mtg/scryfall/api/enums/Legality.java:18-21 | two constants with the same lowercased serialised form are the same constant |
| LegalityEnum.DistinctKeys | src/main/java/emi/lib/mtg/scryfall/api/enums/Legality.java:5-22 | the lowercased serialised forms are pairwise distinct, so the reverse map and the type adapter are built without an exception |
| LegalityEnum.RoundTrip | src/main/java/emi/lib/mtg/scryfall/api/enums/Legality.java:5-22 | the adapter reads back every constant it writes: `read(write(c)) == c` |
| LegalityEnum.Decodes | src/main/java/emi/lib/mtg/scryfall/api/enums/Legality.java:5-22 | a text whose lowercased, underscore-free form is a constant's key decodes to that constant, as a name and as a string |
| LegalityEnum.UnrecognizedKey | src/main/java/emi/lib/mtg/scryfall/api/enums/Legality.java:5-22 | the Unrecognized constant's key is "unrecognized" |
| LegalityEnum.AdapterFallsBackToUnrecognized | src/main/java/emi/lib/mtg/scryfall/api/enums/Legality.java:5-22 | the adapter's fallback for an unknown name is the Unrecognized constant |
| LegalityEnum.UnknownIsUnrecognized | src/main/java/emi/lib/mtg/scryfall/api/enums/Legality.java:5-22 | a name that is no constant's key gives Unrecognized through `orUnrecognized` and through `read` |
| RarityEnum.KeyInjective | src/main/java/emi/lib/mtg/scryfall/api/enums/Rarity.java:20-23 | two constants with the same lowercased serialised form are the same constant |
| RarityEnum.DistinctKeys | src/main/java/emi/lib/mtg/scryfall/api/enums/Rarity.java:5-24 | the lowercased serialised forms are pairwise distinct, so the reverse map and the type adapter are built without an exception |
| RarityEnum.RoundTrip | src/main/java/emi/lib/mtg/scryfall/api/enums/Rarity.java:5-24 | the adapter reads back every constant it writes: `read(write(c)) == c` |
| RarityEnum.Decodes | src/main/java/emi/lib/mtg/scryfall/api/enums/Rarity.java:5-24 | a text whose lowercased, underscore-free form is a constant's key decodes to that constant, as a name and as a string |
| RarityEnum.UnrecognizedKey | src/main/java/emi/lib/mtg/scryfall/api/enums/Rarity.java:5-24 | the Unrecognized constant's key is "unrecognized" |
| RarityEnum.AdapterFallsBackToUnrecognized | src/main/java/emi/lib/mtg/scryfall/api/enums/Rarity.java:5-24 | the adapter's fallback for an unknown name is the Unrecognized constant |
| RarityEnum.UnknownIsUnrecognized | src/main/java/emi/lib/mtg/scryfall/api/enums/Rarity.java:5-24 | a name that is no constant's key gives Unrecognized through `orUnrecognized` and through `read` |
| SetTypeEnum.KeyInjective | src/main/java/emi/lib/mtg/scryfall/api/enums/SetType.java:37-40 | two constants with the same lowercased serialised form are the same constant |
| SetTypeEnum.DistinctKeys | src/main/java/emi/lib/mtg/scryfall/api/enums/SetType.java:5-41 | the lowercased serialised forms are pairwise distinct, so the reverse map and the type adapter are built without an exception |
| SetTypeEnum.RoundTrip | src/main/java/emi/lib/mtg/scryfall/api/enums/SetType.java:5-41 | the adapter reads back every constant it writes: `read(write(c)) == c` |
| SetTypeEnum.Decodes | src/main/java/emi/lib/mtg/scryfall/api/enums/SetType.java:5-41 | a text whose lowercased, underscore-free form is a constant's key decodes to that constant, as a name and as a string |
| SetTypeEnum.UnrecognizedKey | src/main/java/emi/lib/mtg/scryfall/api/enums/SetType.java:5-41 | the Unrecognized constant's key is "unrecognized" |
| SetTypeEnum.AdapterFallsBackToUnrecognized | src/main/java/emi/lib/mtg/scryfall/api/enums/SetType.java:5-41 | the adapter's fallback for an unknown name is the Unrecognized constant |
| SetTypeEnum.UnknownIsUnrecognized | src/main/java/emi/lib/mtg/scryfall/api/enums/SetType.java:5-41 | a name that is no constant's key gives Unrecognized through `orUnrecognized` and through `read` |
| BulkDataTypeEnum.DecodesDefaultCards | src/main/java/emi/lib/mtg/scryfall/api/enums/BulkDataType.java:6-15 | the wire text "default_cards" decodes to DefaultCards |
| CardFrameEnum.FramesAgree | src/main/java/emi/lib/mtg/scryfall/api/enums/CardFrame.java:17-23 | every derived frame (split left/right, flip top/bottom) is the modern variant exactly for the frames other than 1993 and 1997, and the full variant otherwise |
| CardFrameEnum.YearFrames | src/main/java/emi/lib/mtg/scryfall/api/enums/CardFrame.java:6-12 | the serialised form is a four-digit year exactly for the constants other than Future and Unrecognized |
| CardLayoutEnum.DecodesModalDFC | src/main/java/emi/lib/mtg/scryfall/api/enums/CardLayout.java:21 | the wire text "modal_dfc" decodes to ModalDFC |
| CardLayoutEnum.DecodesDoubleFacedToken | src/main/java/emi/lib/mtg/scryfall/api/enums/CardLayout.java:15 | the wire text "double_faced_token" decodes to DoubleFacedToken |
| CardLayoutEnum.DecodesArtSeries | src/main/java/emi/lib/mtg/scryfall/api/enums/CardLayout.java:20 | the wire text "art_series" decodes to ArtSeries |
| CardLayoutEnum.DecodesReversibleCard | src/main/java/emi/lib/mtg/scryfall/api/enums/CardLayout.java:23 | the wire text "reversible_card" decodes to ReversibleCard |
| ColorEnum.SerialisedForms | src/main/java/emi/lib/mtg/scryfall/api/enums/Color.java:4-22 | each serialised form is one character: the name's initial, except "U" for Blue and "?" for Unrecognized |
| ColorEnum.LibColorMeaning | src/main/java/emi/lib/mtg/scryfall/api/enums/Color.java:4-12 | the library colour is null exactly for Unrecognized, and otherwise the colour of the same name |
| ColorEnum.AdapterHasNoFallback | src/main/java/emi/lib/mtg/scryfall/api/enums/Color.java:9 | no colour's key is "unrecognized", so the adapter's fallback is null |
| ColorEnum.UnknownIsNull | src/main/java/emi/lib/mtg/scryfall/api/enums/Color.java:3-28 | an unknown colour name gives null through `orUnrecognized` and through `read` |
| ColorEnum.NoKeyIsUnrecognized | src/main/java/emi/lib/mtg/scryfall/api/enums/Color.java:9 | the reverse map has no "unrecognized" entry |
| FinishEnum.DecodesFoil | src/main/java/emi/lib/mtg/scryfall/api/enums/Finish.java:5-13 | the reverse-map keys are lowercased, so both "foil" and "Foil" decode to Foil |
| GameFormatEnum.LibFormatNull | src/main/java/emi/lib/mtg/scryfall/api/enums/GameFormat.java:10-31 | the library format is null exactly for PauperCommander, Duel, OldSchool, Oathbreaker, HistoricBrawl, Gladiator, Premodern, Predh and Unrecognized |
| GameFormatEnum.LibFormatSameName | src/main/java/emi/lib/mtg/scryfall/api/enums/GameFormat.java:10-31 | a non-null library format has the constant's own name |
| GameFormatEnum.PutAllKeys | src/main/java/emi/lib/mtg/scryfall/api/enums/GameFormat.java:35-43 | every key of the name map is the serialised form of some constant put |
| GameFormatEnum.PutAllFinds | src/main/java/emi/lib/mtg/scryfall/api/enums/GameFormat.java:35-43 | a constant put after every other constant with its serialised form is what the name map holds under that form |
| GameFormatEnum.SerializedIsKey | src/main/java/emi/lib/mtg/scryfall/api/enums/GameFormat.java:48-51 | the serialised form is already lower case, so it is its own reverse-map key |
| GameFormatEnum.ByNameExactly | src/main/java/emi/lib/mtg/scryfall/api/enums/GameFormat.java:63-65 | `byName(name)` is f exactly when name is f's serialised form |
| GameFormatEnum.ByNameInverse | src/main/java/emi/lib/mtg/scryfall/api/enums/GameFormat.java:63-65 | `byName(f.serialized()) == f` for every constant |
| GameFormatEnum.ByNameUnknown | src/main/java/emi/lib/mtg/scryfall/api/enums/GameFormat.java:63-65 | a name that is no constant's serialised form gives null |
| LegalityEnum.LibLegalityMeaning | src/main/java/emi/lib/mtg/scryfall/api/enums/Legality.java:6-16 | the library legality is null exactly for Unrecognized, and otherwise the legality of the same name |
| LegalityEnum.DecodesNotLegal | src/main/java/emi/lib/mtg/scryfall/api/enums/Legality.java:7 | the wire text "not_legal" decodes to NotLegal |
| RarityEnum.LibRarityMeaning | src/main/java/emi/lib/mtg/scryfall/api/enums/Rarity.java:6-18 | Common, Uncommon, Rare and Special map to the library rarity of the same name, Mythic to MythicRare, Bonus and Special to Special, Unrecognized to null, and nothing to BasicLand |
| SetTypeEnum.LibSetKindMeaning | src/main/java/emi/lib/mtg/scryfall/api/enums/SetType.java:6-35 | each set type maps to the library set kind its constructor names, and only Unrecognized maps to null |
| CollectorNumber.SpanFrom | src/main/java/emi/lib/mtg/scryfall/ScryfallPrint.java:14 | the longest run of characters of one class starting at i: every character in it belongs to the class and the next one does not |
| CollectorNumber.SpanFromEnds | src/main/java/emi/lib/mtg/scryfall/ScryfallPrint.java:14 | any run of the class that cannot be extended is the one SpanFrom finds |
| CollectorNumber.NumberEndSound | src/main/java/emi/lib/mtg/scryfall/ScryfallPrint.java:14 | the number group the matcher picks is a non-empty run of digits followed by nothing or a well-formed suffix group |
| CollectorNumber.WithPrefixSound | src/main/java/emi/lib/mtg/scryfall/ScryfallPrint.java:14 | a match found with a prefix group splits the text into prefix, number and suffix of the pattern's shape |
| CollectorNumber.WithoutPrefixSound | src/main/java/emi/lib/mtg/scryfall/ScryfallPrint.java:14 | a match found without a prefix group has the pattern's shape |
| CollectorNumber.MatchOrdinarySound | src/main/java/emi/lib/mtg/scryfall/ScryfallPrint.java:14-18 | every match the model reports has the pattern's shape |
| CollectorNumber.ShapeIndices | src/main/java/emi/lib/mtg/scryfall/ScryfallPrint.java:14 | a text of the pattern's shape is its groups laid end to end: digits in the number, suffix characters after it |
| CollectorNumber.BareNumberHasNoPrefixMatch | src/main/java/emi/lib/mtg/scryfall/ScryfallPrint.java:14 | a text with an empty prefix group has no match with a prefix |
| CollectorNumber.PrefixedNumberMatch | src/main/java/emi/lib/mtg/scryfall/ScryfallPrint.java:14 | a text of the pattern's shape with a non-empty prefix is matched with exactly those groups |
| CollectorNumber.MatchOrdinaryComplete | src/main/java/emi/lib/mtg/scryfall/ScryfallPrint.java:14-18 | every text of the pattern's shape is matched, with its own groups |
| CollectorNumber.MatchOrdinaryExactly | src/main/java/emi/lib/mtg/scryfall/ScryfallPrint.java:14-18 | `matches()` succeeds with groups g exactly when the text has the pattern's shape with those groups |
| CollectorNumber.OfMeaning | src/main/java/emi/lib/mtg/scryfall/ScryfallPrint.java:16-32 | `of` is null exactly when the pattern does not match; it throws NumberFormatException exactly when the number group exceeds the int range; otherwise it carries the groups, with a "*" prefix moved to the end of the suffix |
| CollectorNumber.OrdinaryCompareAntisymmetric | src/main/java/emi/lib/mtg/scryfall/ScryfallPrint.java:44-49 | `compareTo` on ordinary collector numbers is antisymmetric and is zero exactly for equal numbers |
| CollectorNumber.MatchYearExactly | src/main/java/emi/lib/mtg/scryfall/ScryfallPrint.java:52 | the year pattern matches exactly an optional "p", four digits, "-" and one or two digits |
| CollectorNumber.MatchArenaExactly | src/main/java/emi/lib/mtg/scryfall/ScryfallPrint.java:53 | the Arena pattern matches exactly three digits, "-" and one or more upper-case letters |
| CollectorNumber.MatchListExactly | src/main/java/emi/lib/mtg/scryfall/ScryfallPrint.java:54 | the List pattern matches exactly a 3- or 4-character alphanumeric set code, "-" and an ordinary collector number |
| CollectorNumber.OfFailsOnlyOnOrdinary | src/main/java/emi/lib/mtg/scryfall/ScryfallPrint.java:16-32 | `of` throws only for texts of the ordinary shape, and returns a number exactly for them |
| CollectorNumber.EarlierTierFirst | src/main/java/emi/lib/mtg/scryfall/ScryfallPrint.java:56-112 | a number of an earlier kind (ordinary, year-coded, Arena, List, other) sorts before one of a later kind, unless parsing the first throws |
| CollectorNumber.UnrecognisedCompareAsStrings | src/main/java/emi/lib/mtg/scryfall/ScryfallPrint.java:114-115 | two numbers of no known kind compare as strings |
| CollectorNumber.CompareListsAntisymmetric | src/main/java/emi/lib/mtg/scryfall/ScryfallPrint.java:99-109 | the List comparison throws symmetrically and is otherwise antisymmetric |
| CollectorNumber.CompareArenaAntisymmetric | src/main/java/emi/lib/mtg/scryfall/ScryfallPrint.java:86-89 | the Arena comparison throws symmetrically and is otherwise antisymmetric |
| CollectorNumber.CompareYearsAntisymmetric | src/main/java/emi/lib/mtg/scryfall/ScryfallPrint.java:67-76 | the year-coded comparison throws symmetrically and is otherwise antisymmetric |
| CollectorNumber.CompareAntisymmetric | src/main/java/emi/lib/mtg/scryfall/ScryfallPrint.java:56-116 | COLLECTOR_NUMBER_COMPARATOR throws symmetrically and is otherwise antisymmetric: compare(a, b) == -compare(b, a) |
| CollectorNumber.CompareReflexive | src/main/java/emi/lib/mtg/scryfall/ScryfallPrint.java:56-116 | a number compares equal to itself whenever the comparator returns |
| CollectorNumber.OrdinaryChars | src/main/java/emi/lib/mtg/scryfall/ScryfallPrint.java:14 | an ordinary collector number consists only of digits, letters, "*" and the suffix marks |
| CollectorNumber.DashedIsNotOrdinary | src/main/java/emi/lib/mtg/scryfall/ScryfallPrint.java:14-18 | a text with "-" is never an ordinary collector number |
| CollectorNumber.BareNumbersCompareNumerically | src/main/java/emi/lib/mtg/scryfall/ScryfallPrint.java:45-48 | two plain numbers within the int range compare by their numeric values |
| CollectorNumber.BareNumberOf | src/main/java/emi/lib/mtg/scryfall/ScryfallPrint.java:16-32 | a plain number within the int range parses with empty prefix and suffix and its numeric value |
| CollectorNumber.YearCodedOrder | src/main/java/emi/lib/mtg/scryfall/ScryfallPrint.java:67-76 | year-coded numbers compare by year, then by number difference, then the "p"-marked one after the unmarked |
| CollectorNumber.ArenaOrder | src/main/java/emi/lib/mtg/scryfall/ScryfallPrint.java:81-89 | two arena numbers never throw, compare by the difference of their numbers when those differ, and otherwise by the names after the dash |
| CollectorNumber.ArenaIsNotYearCoded | src/main/java/emi/lib/mtg/scryfall/ScryfallPrint.java:52-54 | an arena number matches neither the ordinary nor the year-coded pattern, so the comparator reaches its arena branch |
| CollectorNumber.ListOrder | src/main/java/emi/lib/mtg/scryfall/ScryfallPrint.java:94-109 | two list numbers compare by their set codes when those differ, and otherwise exactly as the comparator orders the ordinary numbers after the dash (throwing when one overflows) |
| CardId.PairTextJoinsParts | src/main/java/emi/lib/mtg/scryfall/util/CardId.java:22-36 | the two-face id text is the first face's single text, then "\n//\n\n", then the second face's single text |
| CardId.FacesAndCardsAgree | src/main/java/emi/lib/mtg/scryfall/util/CardId.java:26-32 | a card pair and a face pair with the same names and rules texts get the same id |
| CardId.EqualsMeaning | src/main/java/emi/lib/mtg/scryfall/util/CardId.java:42-53 | `equals` is equality of the UUIDs: reflexive, symmetric, false for null, and equal ids have equal hash codes |
| OrderedMap.IndexOf | src/main/java/emi/lib/mtg/scryfall/util/MirrorMap.java:40-43 | the position of a key: the first entry with that key, or the end when no entry has it |
| OrderedMap.GetMeaning | src/main/java/emi/lib/mtg/scryfall/util/MirrorMap.java:40-43 | `get(k)` is non-null exactly when k is a key, and then is the value stored under k |
| OrderedMap.PutMeaning | src/main/java/emi/lib/mtg/scryfall/util/MirrorMap.java:45-48 | after `put(k, v)` the keys stay distinct, k maps to v, every other key keeps its value, and the size grows by one exactly when k was new |
| OrderedMap.RemoveKeyMeaning | src/main/java/emi/lib/mtg/scryfall/util/MirrorMap.java:50-53 | after `remove(k)` k is absent, every other key keeps its value, and the size shrinks by one exactly when k was present |
| OrderedMap.RemoveIfMeaning | src/main/java/emi/lib/mtg/scryfall/util/MirrorSet.java:82-102 | `entrySet().removeIf(p)` keeps exactly the entries p rejects, and reports a change exactly when some entry matched |
| OrderedMap.ValuesMeaning | src/main/java/emi/lib/mtg/scryfall/util/MirrorMap.java:35-38 | `containsValue(v)` holds exactly when some key maps to v |
| OrderedMap.AsMapMeaning | src/main/java/emi/lib/mtg/scryfall/util/MirrorMap.java:91-94 | the mathematical map of the entries has the same keys and values, and as many keys as entries (the basis of `equals`) |
| OrderedMap.PutAllMeaning | src/main/java/emi/lib/mtg/scryfall/util/MirrorMap.java:55-58 | after `putAll(m)` a key maps to m's last value for it, and otherwise to its old value |
| OrderedMap.PutAsMap | src/main/java/emi/lib/mtg/scryfall/util/MirrorMap.java:45-48 | `put` updates the mathematical map at one key |
| OrderedMap.RemoveAsMap | src/main/java/emi/lib/mtg/scryfall/util/MirrorMap.java:50-53 | `remove` deletes one key from the mathematical map |
| OrderedMap.ValuesRepeat | src/main/java/emi/lib/mtg/scryfall/util/MirrorMap.java:75-84 | the value view repeats a value exactly when two different keys map to it, the set contract breach the valueSet documentation warns of |
| OrderedMap.MapValuesKeepsKeys | src/main/java/emi/lib/mtg/scryfall/util/MirrorMap.java:111-114 | `replaceAll` keeps the keys and their order |
| OrderedMap.MapValuesMeaning | src/main/java/emi/lib/mtg/scryfall/util/MirrorMap.java:111-114 | after `replaceAll(f)` each key maps to f applied to it and its old value |
| MirrorMap.MirrorMap.constructor | src/main/java/emi/lib/mtg/scryfall/util/MirrorMap.java:15-18 | wraps the map the factory made, with a fresh value-set view over it |
| MirrorMap.MirrorMap.Put | src/main/java/emi/lib/mtg/scryfall/util/MirrorMap.java:45-48 | delegates `put`: returns the previous value and leaves the backing map updated at k |
| MirrorMap.MirrorMap.Remove | src/main/java/emi/lib/mtg/scryfall/util/MirrorMap.java:50-53 | delegates `remove(k)`: returns the previous value and removes k |
| MirrorMap.MirrorMap.PutAll | src/main/java/emi/lib/mtg/scryfall/util/MirrorMap.java:55-58 | delegates `putAll` |
| MirrorMap.MirrorMap.Clear | src/main/java/emi/lib/mtg/scryfall/util/MirrorMap.java:60-63 | delegates `clear`: the backing map is empty |
| MirrorMap.MirrorMap.PutIfAbsent | src/main/java/emi/lib/mtg/scryfall/util/MirrorMap.java:116-119 | returns the present value, and puts v only when there was none |
| MirrorMap.MirrorMap.RemoveMapping | src/main/java/emi/lib/mtg/scryfall/util/MirrorMap.java:121-124 | `remove(k, v)` removes k exactly when it maps to v, and says whether it did |
| MirrorMap.MirrorMap.ReplaceMapping | src/main/java/emi/lib/mtg/scryfall/util/MirrorMap.java:126-129 | `replace(k, old, new)` replaces exactly when k maps to old, and says whether it did |
| MirrorMap.MirrorMap.Replace | src/main/java/emi/lib/mtg/scryfall/util/MirrorMap.java:131-134 | `replace(k, v)` replaces only a present key and returns the previous value |
| MirrorMap.MirrorMap.ComputeIfAbsent | src/main/java/emi/lib/mtg/scryfall/util/MirrorMap.java:136-139 | returns the present value, or stores and returns the computed one when it is non-null |
| MirrorMap.MirrorMap.ComputeIfPresent | src/main/java/emi/lib/mtg/scryfall/util/MirrorMap.java:141-144 | recomputes a present key's value, removing the key when the result is null |
| MirrorMap.MirrorMap.Compute | src/main/java/emi/lib/mtg/scryfall/util/MirrorMap.java:146-149 | stores the computed value, or removes the key when it is null |
| MirrorMap.MirrorMap.Merge | src/main/java/emi/lib/mtg/scryfall/util/MirrorMap.java:151-154 | stores v for an absent key and the merged value for a present one, removing the key when the merge gives null |
| MirrorMap.MirrorMap.ReplaceAll | src/main/java/emi/lib/mtg/scryfall/util/MirrorMap.java:111-114 | delegates `replaceAll` |
| MirrorMap.ViewMirrorsMap | src/main/java/emi/lib/mtg/scryfall/util/MirrorMap.java:82-84 | the value-set view has the map's size, emptiness, value membership and values in order |
| MirrorMap.AccessorsAgree | src/main/java/emi/lib/mtg/scryfall/util/MirrorMap.java:20-43 | over a map with distinct keys, `size()` counts the keys, `isEmpty()` holds exactly without keys, `containsKey(k)` is a non-null `get(k)`, and `containsValue(v)` holds exactly when some key maps to v |
| MirrorMap.EqualsAgrees | src/main/java/emi/lib/mtg/scryfall/util/MirrorMap.java:91-94 | `equals(o)` holds exactly when o has the same keys and each maps to what `get` answers |
| MirrorSet.ViewMirrorsMap | src/main/java/emi/lib/mtg/scryfall/util/MirrorSet.java:45-68 | over a map with distinct keys, `size()` counts its keys, `isEmpty()` holds exactly without keys, `contains(o)` holds exactly when some key maps to o, and `toArray()` has one element per key, each a value some key maps to |
| MirrorSet.MirrorSet.Add | src/main/java/emi/lib/mtg/scryfall/util/MirrorSet.java:75-78 | `add` always throws UnsupportedOperationException |
| MirrorSet.MirrorSet.AddAll | src/main/java/emi/lib/mtg/scryfall/util/MirrorSet.java:90-93 | `addAll` always throws UnsupportedOperationException |
| MirrorSet.MirrorSet.RemoveAsWritten | src/main/java/emi/lib/mtg/scryfall/util/MirrorSet.java:80-83 | `remove(o)` as written: drops every entry whose value is o, has o's hash code, or equals o, and reports whether any went |
| MirrorSet.MirrorSet.Remove | src/main/java/emi/lib/mtg/scryfall/util/MirrorSet.java:80-83 | `remove(o)` by value equality: drops exactly the entries holding o, after which o is absent, and reports whether o was present |
| MirrorSet.MirrorSet.RetainAll | src/main/java/emi/lib/mtg/scryfall/util/MirrorSet.java:95-98 | drops the entries whose value is not in c and reports whether any went |
| MirrorSet.MirrorSet.RemoveAll | src/main/java/emi/lib/mtg/scryfall/util/MirrorSet.java:100-103 | drops the entries whose value is in c and reports whether any went |
| MirrorSet.MirrorSet.Clear | src/main/java/emi/lib/mtg/scryfall/util/MirrorSet.java:105-108 | empties the backing map |
| MirrorSet.MirrorSet.Iterator | src/main/java/emi/lib/mtg/scryfall/util/MirrorSet.java:60-63 | a fresh iterator over the backing map's entries, at the start |
| MirrorSet.MirrorIterator.Next | src/main/java/emi/lib/mtg/scryfall/util/MirrorSet.java:23-26 | returns the value of the next entry and advances, or throws NoSuchElementException at the end |
| MirrorSet.MirrorIterator.Remove | src/main/java/emi/lib/mtg/scryfall/util/MirrorSet.java:28-31 | removes the entry last returned from the backing map, once per `next`, and otherwise throws IllegalStateException changing nothing |
| MirrorSet.RemovedValueIsGone | src/main/java/emi/lib/mtg/scryfall/util/MirrorSet.java:80-83 | after removal by value equality the value is no longer among the map's values |
| MirrorSet.RemoveAsWrittenDropsCollisions | src/main/java/emi/lib/mtg/scryfall/util/MirrorSet.java:82 | "Aa" and "BB" have the same `String.hashCode`, 2112, so the as-written `remove("Aa")` deletes both, where removal by equality keeps "BB" |
| FilteredBiMap.SizeCountsKeys | src/main/java/emi/lib/mtg/scryfall/v2_1/util/FilteredBiMap.java:25-30 | `size()` counts the backing values that pass the predicate, one per key since the backing map is a bimap, and is at most the backing size |
| FilteredBiMap.ImageSize | src/main/java/emi/lib/mtg/scryfall/v2_1/util/FilteredBiMap.java:25-30 | in a bimap a set of keys has as many values as keys |
| FilteredBiMap.IsEmptyMeaning | src/main/java/emi/lib/mtg/scryfall/v2_1/util/FilteredBiMap.java:32-35 | `isEmpty()` holds exactly when no value passes |
| FilteredBiMap.GetMeaning | src/main/java/emi/lib/mtg/scryfall/v2_1/util/FilteredBiMap.java:37-56 | `get(k)` is non-null exactly when `containsKey(k)`; it is v exactly when k maps to v in the backing map and v passes; `containsValue(v)` holds exactly when some key gets v |
| FilteredBiMap.AcceptAllShowsEverything | src/main/java/emi/lib/mtg/scryfall/v2_1/util/FilteredBiMap.java:20-56 | with a predicate that accepts everything the view answers like the backing map |
| FilteredBiMap.StubsAnswerNothing | src/main/java/emi/lib/mtg/scryfall/v2_1/util/FilteredBiMap.java:58-131 | every mutator and `getOrDefault` is a stub: it returns null or false and changes nothing |
| PagedList.ConcatAt | src/main/java/emi/lib/mtg/scryfall/api/PagedList.java:49-50 | the element at an index inside page j of the loaded pages is that page's element at the offset from the page's first index |
| PagedList.FloorIndex | src/main/java/emi/lib/mtg/scryfall/api/PagedList.java:49 | `floorEntry(index)`: the last page key at most index, or none |
| PagedList.ReplaceEmptyLast | src/main/java/emi/lib/mtg/scryfall/api/PagedList.java:27-28 | fetching after an empty last page puts the new page under the same key, replacing it, and the loaded elements are extended by the new page |
| PagedList.AppendAfterLast | src/main/java/emi/lib/mtg/scryfall/api/PagedList.java:27-28 | fetching after a non-empty last page adds the new page under the next free index, and the loaded elements are extended by it |
| PagedList.Lookup | src/main/java/emi/lib/mtg/scryfall/api/PagedList.java:49-50 | an index below the loaded end gives the loaded element at that index; a negative index throws NullPointerException (floorEntry is null) |
| PagedList.PagedList.constructor | src/main/java/emi/lib/mtg/scryfall/api/PagedList.java:13-20 | the first page is stored under key 0 only when non-null and non-empty |
| PagedList.PagedList.FetchNextPage | src/main/java/emi/lib/mtg/scryfall/api/PagedList.java:22-31 | without more pages returns false and changes nothing; otherwise requests the next page (IOException when the request fails) and stores it after the last page |
| PagedList.PagedList.FetchUntil | src/main/java/emi/lib/mtg/scryfall/api/PagedList.java:39-47 | fetches pages until the index is loaded; fails with NoSuchElementException only when the last page says there are no more, or with the request's failure |
| PagedList.PagedList.Get | src/main/java/emi/lib/mtg/scryfall/api/PagedList.java:33-51 | `get(index)` returns the loaded element at index, fetching pages as needed; with no pages it throws NoSuchElementException; a negative index throws NullPointerException |
| PagedList.PagedList.LastPageEnds | src/main/java/emi/lib/mtg/scryfall/api/PagedList.java:39 | the last key plus the last page's size is the number of loaded elements |
| PagedList.PagedList.SizeMeaning | src/main/java/emi/lib/mtg/scryfall/api/PagedList.java:53-67 | `isEmpty()` holds exactly when no page is stored; `size()` is 0 then, and without a total count it is the number of loaded elements |
| PagedList.PagedList.FirstPageLoaded | src/main/java/emi/lib/mtg/scryfall/api/PagedList.java:53-62 | the loaded elements include all of the first page |
| SerdeProtocol.Expect | src/main/java/emi/lib/mtg/scryfall/serde/ScryfallSerde.java:68-72 | expect succeeds exactly when the input equals the expected value (nulls included) and otherwise fails with an IOException |
| SerdeProtocol.InactiveRejects | src/main/java/emi/lib/mtg/scryfall/serde/ScryfallSerde.java:48-66 | from the Inactive state, every call other than starting is refused |
| SerdeProtocol.FooterRun | src/main/java/emi/lib/mtg/scryfall/serde/ScryfallSerde.java:48-66 | from the Footer state, a sequence of calls ends the session exactly when it is the single end call |
| SerdeProtocol.CardsRun | src/main/java/emi/lib/mtg/scryfall/serde/ScryfallSerde.java:48-66 | from the Cards state, a call sequence ends the session iff it is any number of card calls followed by end-cards and end |
| SerdeProtocol.SetsRun | src/main/java/emi/lib/mtg/scryfall/serde/ScryfallSerde.java:48-66 | from the Sets state, a call sequence ends the session iff it is set calls (with the end-sets call anywhere among them), start-cards, card calls, end-cards and end |
| SerdeProtocol.ProtocolLanguage | src/main/java/emi/lib/mtg/scryfall/serde/ScryfallSerde.java:48-66 | a call sequence starting with one start call returns the serde to Inactive exactly when it is a complete session: header, sets, cards, footer in that order |
| SerdeFactory.Get | src/main/java/emi/lib/mtg/scryfall/serde/ScryfallSerde.java:35-44 | get returns a fresh serde of the requested implementation with both its reader and its writer Inactive |
| JsonSerde.NextName | src/main/java/emi/lib/mtg/scryfall/serde/Json.java:139 | reading a name succeeds exactly when the next token is a name, and returns that name |
| JsonSerde.Consume | src/main/java/emi/lib/mtg/scryfall/serde/Json.java:118 | consuming a structural token succeeds exactly when it is the next token |
| JsonSerde.PeekName | src/main/java/emi/lib/mtg/scryfall/serde/Json.java:133 | peeking fails past the end of input and otherwise says whether the next token is a name |
| JsonSerde.SetAt | src/main/java/emi/lib/mtg/scryfall/serde/Json.java:140 | decoding a set succeeds exactly when the next token is a set value and returns it; at end of input the result is null and dereferencing it fails |
| JsonSerde.CardAt | src/main/java/emi/lib/mtg/scryfall/serde/Json.java:171 | decoding a card succeeds exactly when the next token is a card value and returns it; at end of input the result is null and dereferencing it fails |
| JsonSerde.IntAt | src/main/java/emi/lib/mtg/scryfall/serde/Json.java:158 | reading an int succeeds exactly when the next token is a number within 32-bit range, and returns it |
| JsonSerde.ReadSetsStart | src/main/java/emi/lib/mtg/scryfall/serde/Json.java:122-128 | reading the sets header succeeds exactly when the next two tokens are the name "sets" and a begin-object, and advances by two |
| JsonSerde.ReadSetEntry | src/main/java/emi/lib/mtg/scryfall/serde/Json.java:136-143 | reading a set entry succeeds exactly when a name is followed by a set whose code is that name, and returns the set |
| JsonSerde.ReadCardsHeader | src/main/java/emi/lib/mtg/scryfall/serde/Json.java:151-159 | reading the cards header succeeds exactly when the next tokens are "cards", begin-object and "count", and advances by three |
| JsonSerde.ReadCardEntry | src/main/java/emi/lib/mtg/scryfall/serde/Json.java:167-174 | reading a card entry succeeds exactly when a name is followed by a card whose id text is that name, and returns the card |
| JsonSerde.SetsStartRoundTrip | src/main/java/emi/lib/mtg/scryfall/serde/Json.java:60-66 | what writeStartSets writes, readStartSets reads back, whatever surrounds it |
| JsonSerde.SetEntryRoundTrip | src/main/java/emi/lib/mtg/scryfall/serde/Json.java:68-73 | a set written by writeSet is announced by hasNextSet and read back unchanged by nextSet |
| JsonSerde.SetEntryMismatch | src/main/java/emi/lib/mtg/scryfall/serde/Json.java:141 | a set entry whose name differs from the set's code is rejected with an IOException |
| JsonSerde.NoEntryAtClose | src/main/java/emi/lib/mtg/scryfall/serde/Json.java:130-134 | at the closing brace hasNextSet and hasNextCard answer false and the end call consumes it |
| JsonSerde.CardsStartRoundTrip | src/main/java/emi/lib/mtg/scryfall/serde/Json.java:81-89 | what writeStartCards writes, readStartCards reads back, returning the count written |
| JsonSerde.CardEntryRoundTrip | src/main/java/emi/lib/mtg/scryfall/serde/Json.java:91-96 | a card written by writeCard is announced by hasNextCard and read back unchanged by nextCard |
| JsonSerde.Json.constructor | src/main/java/emi/lib/mtg/scryfall/serde/Json.java:29-35 | a new Json serde has no reader or writer and both states Inactive |
| JsonSerde.Json.Type | src/main/java/emi/lib/mtg/scryfall/serde/Json.java:47-50 | the Json serde reports the Json implementation |
| JsonSerde.Json.StartWriting | src/main/java/emi/lib/mtg/scryfall/serde/Json.java:52-58 | starting to write succeeds exactly from Inactive, opening a fresh output that holds one begin-object and moving the writer to Header; from any other state the open writer's document is incomplete, so closing it throws IOException and nothing changes |
| JsonSerde.Json.WriteStartSets | src/main/java/emi/lib/mtg/scryfall/serde/Json.java:60-66 | outside Header it throws IllegalState and changes nothing; in Header it appends the sets header and moves to Sets |
| JsonSerde.Json.WriteSet | src/main/java/emi/lib/mtg/scryfall/serde/Json.java:68-73 | outside Sets it throws IllegalState; a set without a code fails on the null name; otherwise it appends the code and the set |
| JsonSerde.Json.WriteEndSets | src/main/java/emi/lib/mtg/scryfall/serde/Json.java:75-79 | outside Sets it throws IllegalState; in Sets it appends an end-object and the state stays Sets |
| JsonSerde.Json.WriteStartCards | src/main/java/emi/lib/mtg/scryfall/serde/Json.java:81-89 | outside Sets it throws IllegalState; in Sets it appends the cards header with the count and moves to Cards |
| JsonSerde.Json.WriteCard | src/main/java/emi/lib/mtg/scryfall/serde/Json.java:91-96 | outside Cards it throws IllegalState; in Cards it appends the card under its id text |
| JsonSerde.Json.WriteEndCards | src/main/java/emi/lib/mtg/scryfall/serde/Json.java:98-103 | outside Cards it throws IllegalState; in Cards it appends an end-object and moves to Footer |
| JsonSerde.Json.EndWriting | src/main/java/emi/lib/mtg/scryfall/serde/Json.java:105-112 | outside Footer it throws IllegalState; in Footer it appends the final end-object and returns to Inactive |
| JsonSerde.Json.StartReading | src/main/java/emi/lib/mtg/scryfall/serde/Json.java:114-120 | opening a file succeeds exactly when it begins with a begin-object, and then moves the reader to Header past it |
| JsonSerde.Json.ReadStartSets | src/main/java/emi/lib/mtg/scryfall/serde/Json.java:122-128 | outside Header it throws IllegalState; in Header it succeeds exactly when the sets header follows, and then moves to Sets |
| JsonSerde.Json.HasNextSet | src/main/java/emi/lib/mtg/scryfall/serde/Json.java:130-134 | outside Sets it throws IllegalState; in Sets it says whether a name comes next |
| JsonSerde.Json.NextSet | src/main/java/emi/lib/mtg/scryfall/serde/Json.java:136-143 | outside Sets it throws IllegalState; in Sets it succeeds exactly when a well-formed set entry follows and returns that set |
| JsonSerde.Json.ReadEndSets | src/main/java/emi/lib/mtg/scryfall/serde/Json.java:145-149 | outside Sets it throws IllegalState; in Sets it consumes an end-object and the state stays Sets |
| JsonSerde.Json.ReadStartCards | src/main/java/emi/lib/mtg/scryfall/serde/Json.java:151-159 | outside Sets it throws IllegalState; in Sets it reads the cards header, moves to Cards and returns the count |
| JsonSerde.Json.HasNextCard | src/main/java/emi/lib/mtg/scryfall/serde/Json.java:161-165 | outside Cards it throws IllegalState; in Cards it says whether a name comes next |
| JsonSerde.Json.NextCard | src/main/java/emi/lib/mtg/scryfall/serde/Json.java:167-174 | outside Cards it throws IllegalState; in Cards it succeeds exactly when a well-formed card entry follows and returns that card |
| JsonSerde.Json.ReadEndCards | src/main/java/emi/lib/mtg/scryfall/serde/Json.java:176-181 | outside Cards it throws IllegalState; in Cards it consumes an end-object and moves to Footer |
| JsonSerde.Json.EndReading | src/main/java/emi/lib/mtg/scryfall/serde/Json.java:183-190 | outside Footer it throws IllegalState; in Footer it consumes the final end-object and returns to Inactive |
| MessagePackSerde.UnpackEnum | src/main/java/emi/lib/mtg/scryfall/serde/MessagePack.java:109-125 | a nil token reads as null enum, and any token other than nil or a string is a MessagePack error |
| MessagePackSerde.EnumRoundTrip | src/main/java/emi/lib/mtg/scryfall/serde/MessagePack.java:84-125 | an enum value (or null) packed as its serialized string unpacks to the same value, provided the serialized keys are distinct |
| MessagePackSerde.UnpackMapHeader | src/main/java/emi/lib/mtg/scryfall/serde/MessagePack.java:388 | unpacking a map header succeeds exactly when the next token is one within 32-bit range, and returns its size |
| MessagePackSerde.UnpackString | src/main/java/emi/lib/mtg/scryfall/serde/MessagePack.java:113 | unpacking a string succeeds exactly when the next token is a string, and returns it |
| MessagePackSerde.UnpackLong | src/main/java/emi/lib/mtg/scryfall/serde/MessagePack.java:119 | unpacking a long succeeds exactly when the next token is a long, and returns it |
| MessagePackSerde.UnpackSet | src/main/java/emi/lib/mtg/scryfall/serde/MessagePack.java:411 | unpacking a set object succeeds exactly when the next token is one, and returns it |
| MessagePackSerde.UnpackCard | src/main/java/emi/lib/mtg/scryfall/serde/MessagePack.java:443 | unpacking a card object succeeds exactly when the next token is one, and returns it |
| MessagePackSerde.UnpackUuid | src/main/java/emi/lib/mtg/scryfall/serde/MessagePack.java:122-123 | a UUID is read as two longs, most significant first, and that is exactly what packing it writes |
| MessagePackSerde.UuidRoundTrip | src/main/java/emi/lib/mtg/scryfall/serde/MessagePack.java:98-99 | a UUID packed as its two halves unpacks to the same UUID |
| MessagePackSerde.ReadSetsStart | src/main/java/emi/lib/mtg/scryfall/serde/MessagePack.java:394-399 | the sets header is the string "sets" followed by a map header, whose size is the set count read |
| MessagePackSerde.ReadCardsStart | src/main/java/emi/lib/mtg/scryfall/serde/MessagePack.java:425-431 | the cards header is the string "cards" followed by a map header, whose size is the card count read |
| MessagePackSerde.ReadSetEntry | src/main/java/emi/lib/mtg/scryfall/serde/MessagePack.java:408-415 | a set entry reads successfully exactly when a string is followed by a set whose code is that string |
| MessagePackSerde.ReadCardEntry | src/main/java/emi/lib/mtg/scryfall/serde/MessagePack.java:440-447 | a card entry reads successfully exactly when two longs are followed by a card whose id is the UUID they make |
| MessagePackSerde.RootRoundTrip | src/main/java/emi/lib/mtg/scryfall/serde/MessagePack.java:330 | the two-entry root map header that startWriting writes is what startReading expects |
| MessagePackSerde.SetsStartRoundTrip | src/main/java/emi/lib/mtg/scryfall/serde/MessagePack.java:335-340 | the sets header writeStartSets writes with a count is read back by readStartSets with the same count |
| MessagePackSerde.CardsStartRoundTrip | src/main/java/emi/lib/mtg/scryfall/serde/MessagePack.java:355-360 | the cards header writeStartCards writes with a count is read back by readStartCards with the same count |
| MessagePackSerde.SetEntryRoundTrip | src/main/java/emi/lib/mtg/scryfall/serde/MessagePack.java:343-347 | a set written by writeSet is read back unchanged by nextSet |
| MessagePackSerde.SetEntryMismatch | src/main/java/emi/lib/mtg/scryfall/serde/MessagePack.java:412 | a set entry whose key differs from the set's code is rejected with an IOException |
| MessagePackSerde.CardEntryRoundTrip | src/main/java/emi/lib/mtg/scryfall/serde/MessagePack.java:363-368 | a card written by writeCard is read back unchanged by nextCard |
| MessagePackSerde.CardEntryMismatch | src/main/java/emi/lib/mtg/scryfall/serde/MessagePack.java:444 | a card entry whose UUID key differs from the card's id is rejected with an IOException |
| MessagePackSerde.HasNext | src/main/java/emi/lib/mtg/scryfall/serde/MessagePack.java:402-405 | there is a next entry exactly when the remaining count is positive |
| MessagePackSerde.CountDown | src/main/java/emi/lib/mtg/scryfall/serde/MessagePack.java:413 | the remaining count decreases by one, wrapping from the least 32-bit int to the greatest |
| MessagePackSerde.CountDownTimes | src/main/java/emi/lib/mtg/scryfall/serde/MessagePack.java:413 | counting down any number of times stays within 32-bit range |
| MessagePackSerde.CountDownTimesAfter | src/main/java/emi/lib/mtg/scryfall/serde/MessagePack.java:413 | counting down k times from a count n of at least k leaves n - k |
| MessagePackSerde.CountDownReachesZero | src/main/java/emi/lib/mtg/scryfall/serde/MessagePack.java:402-422 | reading exactly as many entries as the header announced sees hasNext true before each and ends at zero, so the end check passes |
| MessagePackSerde.MessagePack.constructor | src/main/java/emi/lib/mtg/scryfall/serde/MessagePack.java:302-309 | a new MessagePack serde is Inactive on both sides, with both remaining counts -1 |
| MessagePackSerde.MessagePack.Type | src/main/java/emi/lib/mtg/scryfall/serde/MessagePack.java:321-324 | the MessagePack serde reports the MessagePack implementation |
| MessagePackSerde.MessagePack.StartWriting | src/main/java/emi/lib/mtg/scryfall/serde/MessagePack.java:326-332 | starting to write from any state opens a fresh output holding the two-entry root map header and moves to Header |
| MessagePackSerde.MessagePack.WriteStartSets | src/main/java/emi/lib/mtg/scryfall/serde/MessagePack.java:334-340 | outside Header it throws IllegalState; a negative count fails after "sets" is written; otherwise it writes the sets header and moves to Sets |
| MessagePackSerde.MessagePack.WriteSet | src/main/java/emi/lib/mtg/scryfall/serde/MessagePack.java:342-347 | outside Sets it throws IllegalState; a set without a code fails on the null string; otherwise it writes the code and the set |
| MessagePackSerde.MessagePack.WriteEndSets | src/main/java/emi/lib/mtg/scryfall/serde/MessagePack.java:349-352 | outside Sets it throws IllegalState; it writes nothing and changes no state |
| MessagePackSerde.MessagePack.WriteStartCards | src/main/java/emi/lib/mtg/scryfall/serde/MessagePack.java:354-360 | outside Sets it throws IllegalState; a negative count fails after "cards" is written; otherwise it writes the cards header and moves to Cards |
| MessagePackSerde.MessagePack.WriteCard | src/main/java/emi/lib/mtg/scryfall/serde/MessagePack.java:362-368 | outside Cards it throws IllegalState; in Cards it writes the id halves and the card |
| MessagePackSerde.MessagePack.WriteEndCards | src/main/java/emi/lib/mtg/scryfall/serde/MessagePack.java:370-374 | outside Cards it throws IllegalState; in Cards it writes nothing and moves to Footer |
| MessagePackSerde.MessagePack.EndWriting | src/main/java/emi/lib/mtg/scryfall/serde/MessagePack.java:376-382 | outside Footer it throws IllegalState; in Footer it closes the output and returns to Inactive |
| MessagePackSerde.MessagePack.StartReading | src/main/java/emi/lib/mtg/scryfall/serde/MessagePack.java:384-391 | opening succeeds exactly when the file starts with a map header of size 2; a different size is an IOException and a non-header a MessagePack error |
| MessagePackSerde.MessagePack.ReadStartSets | src/main/java/emi/lib/mtg/scryfall/serde/MessagePack.java:393-399 | outside Header it throws IllegalState; in Header it succeeds exactly when the sets header follows, records its count and moves to Sets |
| MessagePackSerde.MessagePack.HasNextSet | src/main/java/emi/lib/mtg/scryfall/serde/MessagePack.java:401-405 | outside Sets it throws IllegalState; in Sets it says whether sets remain |
| MessagePackSerde.MessagePack.NextSet | src/main/java/emi/lib/mtg/scryfall/serde/MessagePack.java:407-415 | outside Sets it throws IllegalState; in Sets it succeeds exactly when a well-formed set entry follows, and then counts one set down |
| MessagePackSerde.MessagePack.ReadEndSets | src/main/java/emi/lib/mtg/scryfall/serde/MessagePack.java:417-422 | outside Sets it throws IllegalState; in Sets it fails unless no sets remain, and then resets the count to -1 |
| MessagePackSerde.MessagePack.ReadStartCards | src/main/java/emi/lib/mtg/scryfall/serde/MessagePack.java:424-431 | outside Sets it throws IllegalState; in Sets it reads the cards header, records and returns its count and moves to Cards |
| MessagePackSerde.MessagePack.HasNextCard | src/main/java/emi/lib/mtg/scryfall/serde/MessagePack.java:433-437 | outside Cards it throws IllegalState; in Cards it says whether cards remain |
| MessagePackSerde.MessagePack.NextCard | src/main/java/emi/lib/mtg/scryfall/serde/MessagePack.java:439-447 | outside Cards it throws IllegalState; in Cards it reads a well-formed card entry and counts one card down |
| MessagePackSerde.MessagePack.ReadEndCards | src/main/java/emi/lib/mtg/scryfall/serde/MessagePack.java:449-455 | outside Cards it throws IllegalState; in Cards it fails unless no cards remain, and then resets the count and moves to Footer |
| MessagePackSerde.MessagePack.EndReading | src/main/java/emi/lib/mtg/scryfall/serde/MessagePack.java:457-463 | outside Footer it throws IllegalState; in Footer it closes the input and returns to Inactive |
| ScryfallFaces.ScryfallFace.constructor | src/main/java/emi/lib/mtg/scryfall/ScryfallFace.java:25-28 | a new face holds its two records and has nothing cached yet |
| ScryfallFaces.ScryfallFace.ColorOf | src/main/java/emi/lib/mtg/scryfall/ScryfallFace.java:68-70 | a face's colour always contains its colour indicator |
| ScryfallFaces.ScryfallFace.IdentityOf | src/main/java/emi/lib/mtg/scryfall/ScryfallFace.java:71-75 | a face's colour identity contains its colour and the colours its land types give |
| ScryfallFaces.ScryfallFace.ManaCost | src/main/java/emi/lib/mtg/scryfall/ScryfallFace.java:83-95 | the mana cost is the library's parse of the face's cost text (the record's when the face has none, "" when null); a success is cached and nothing else changes |
| ScryfallFaces.ScryfallFace.Type | src/main/java/emi/lib/mtg/scryfall/ScryfallFace.java:120-133 | the type line is the library's parse of the face's type text, falling back to the record's; a success is cached and nothing else changes |
| ScryfallFaces.ScryfallFace.InitColor | src/main/java/emi/lib/mtg/scryfall/ScryfallFace.java:35-76 | when all three colours are cached nothing is recomputed; otherwise indicator and colour are set, and identity fails exactly when the type line does not parse |
| ScryfallFaces.ScryfallFace.ColorIndicator | src/main/java/emi/lib/mtg/scryfall/ScryfallFace.java:102-106 | the colour indicator is the face's (or else the record's) indicator colours, failing only when the colours had to be computed and the type line does not parse |
| ScryfallFaces.ScryfallFace.Color | src/main/java/emi/lib/mtg/scryfall/ScryfallFace.java:108-112 | the colour is the face's (or else the record's) colours plus its indicator, failing under the same condition |
| ScryfallFaces.ScryfallFace.ColorIdentity | src/main/java/emi/lib/mtg/scryfall/ScryfallFace.java:114-118 | the colour identity is the rules' mana symbols plus the colour plus land colours, and contains colour and indicator |
| ScryfallFaces.GetterFallbacks | src/main/java/emi/lib/mtg/scryfall/ScryfallFace.java:78-168 | name, rules, power and toughness come from the face entry when there is one and from the record otherwise; loyalty, defense and hand and life modifiers always come from the record; null reads as "" |
| ScryfallFaces.EqualsMeaning | src/main/java/emi/lib/mtg/scryfall/ScryfallFace.java:184-190 | two faces are equal exactly when their oracle ids match and both lack a face entry or both have one with the same name; a null oracle id or name throws |
| ScryfallFaces.EqualFacesHashAlike | src/main/java/emi/lib/mtg/scryfall/ScryfallFace.java:179-190 | equality is symmetric and equal faces hash alike |
| ScryfallFaces.EqualsReflexive | src/main/java/emi/lib/mtg/scryfall/ScryfallFace.java:184-190 | a face equals itself exactly when its oracle id, and its face entry's name if it has one, are present |
| ScryfallFaces.ColorsNest | src/main/java/emi/lib/mtg/scryfall/ScryfallFace.java:67-75 | colour indicator, colour and colour identity are nested, each within the next |
| PrintedFaces.FlavorMeaning | src/main/java/emi/lib/mtg/scryfall/ScryfallPrintedFace.java:32-35 | the flavour text is the face entry's when there is one and the record's otherwise, and is "" exactly when the chosen text is null or empty |
| ScryfallPrintings.New | src/main/java/emi/lib/mtg/scryfall/ScryfallPrinting.java:18-24 | a new printing has its set, card and record and no printed faces |
| ScryfallPrintings.Face | src/main/java/emi/lib/mtg/scryfall/ScryfallPrinting.java:36-39 | face(kind) answers the printed face stored under kind and null when there is none |
| ScryfallPrintings.Faces | src/main/java/emi/lib/mtg/scryfall/ScryfallPrinting.java:31-34 | faces() holds exactly the stored printed faces: each stored one is in it, each one in it is stored under some kind, and it is empty exactly when none is stored |
| ScryfallPrintings.Variation | src/main/java/emi/lib/mtg/scryfall/ScryfallPrinting.java:56-59 | the variation is always 0 |
| ScryfallPrintings.FaceOrAdd | src/main/java/emi/lib/mtg/scryfall/ScryfallCardFactory.java:190 | computeIfAbsent on a printing's faces keeps an existing entry, otherwise stores the new one, and leaves every other entry and field alone |
| ScryfallPrintings.AccessorsMeaning | src/main/java/emi/lib/mtg/scryfall/ScryfallPrinting.java:26-74 | id, collector number and rarity come from the record, set and card from the constructor, and a new printing has no faces |
| ScryfallPrintings.FaceOrAddIdempotent | src/main/java/emi/lib/mtg/scryfall/ScryfallCardFactory.java:190 | a second computeIfAbsent under the same kind changes nothing and returns the first face |
| ScryfallSets.New | src/main/java/emi/lib/mtg/scryfall/ScryfallSet.java:15-18 | a new set holds its record and no printings |
| ScryfallSets.Name | src/main/java/emi/lib/mtg/scryfall/ScryfallSet.java:20-23 | name() is the record's name, and a set built from a missing record throws on it |
| ScryfallSets.Code | src/main/java/emi/lib/mtg/scryfall/ScryfallSet.java:25-28 | code() is the record's code, and a set built from a missing record throws on it |
| ScryfallSets.PrintingById | src/main/java/emi/lib/mtg/scryfall/ScryfallSet.java:35-38 | printing(id) answers the printing stored under id and null when there is none |
| ScryfallSets.AddPrinting | src/main/java/emi/lib/mtg/scryfall/ScryfallSet.java:40-43 | adding a printing adds exactly its id to the keys and keeps the record |
| ScryfallSets.AddThenLookup | src/main/java/emi/lib/mtg/scryfall/ScryfallSet.java:35-43 | after adding, the id finds the new printing, every other id finds what it found before, and name and code are unchanged |
| CardFactory.RouteOf | src/main/java/emi/lib/mtg/scryfall/ScryfallCardFactory.java:18-116 | create() on a record without a layout fails on the switch (a NullPointerException), and on no other record |
| CardFactory.RouteMeaning | src/main/java/emi/lib/mtg/scryfall/ScryfallCardFactory.java:18-116 | the dispatch is closed: the simple layouts go to createSimple, tokens, double-faced tokens and emblems build nothing, split, flip, transform or modal double-faced, meld and adventure each reach their builder, and exactly the remaining layouts are unexpected |
| CardFactory.FacesIdText | src/main/java/emi/lib/mtg/scryfall/ScryfallCardFactory.java:128-138 | the two-face id text fails with a NullPointerException without faces and with an index error with fewer than two |
| CardFactory.IdTextMeaning | src/main/java/emi/lib/mtg/scryfall/ScryfallCardFactory.java:122-160 | one-part ids hash name, newline, rules text; two-face ids hash the two faces' texts around a newline and "\n//\n\n"; tokens and emblems have no id; a null layout throws |
| CardFactory.IdTextDependsOnlyOnText | src/main/java/emi/lib/mtg/scryfall/ScryfallCardFactory.java:122-160 | two records of the same non-meld layout with the same names and rules texts get the same card id, whatever else differs and whatever is pending |
| CardFactory.FacesTextHasExtraNewline | src/main/java/emi/lib/mtg/scryfall/ScryfallCardFactory.java:133-137 | the two-face id text has one newline more before the separator than the plain "//" join of the two faces |
| CardFactory.Lookup | src/main/java/emi/lib/mtg/scryfall/ScryfallCardFactory.java:275 | a part's lookup finds the pending record under its id, and null for a null id or an id that is not pending |
| CardFactory.Candidates | src/main/java/emi/lib/mtg/scryfall/ScryfallCardFactory.java:274-276 | the candidates are the parts' lookups, one per part, in order |
| CardFactory.FindBack | src/main/java/emi/lib/mtg/scryfall/ScryfallCardFactory.java:274-278 | the back found is a non-null candidate with a back-face collector number, and none is found only when no candidate has one |
| CardFactory.FindOther | src/main/java/emi/lib/mtg/scryfall/ScryfallCardFactory.java:280-290 | a front found is a candidate outside the excluded ones; it fails with an AssertionError exactly when every candidate is non-null and excluded, and otherwise only through a null candidate |
| CardFactory.CandidateIsPending | src/main/java/emi/lib/mtg/scryfall/ScryfallCardFactory.java:275 | every non-null candidate is a pending record |
| CardFactory.MeldPartsMeaning | src/main/java/emi/lib/mtg/scryfall/ScryfallCardFactory.java:273-303 | the three meld parts are distinct pending records, the back has a back-face number and the active front holds "then meld them into"; no parts is a NullPointerException and no back an AssertionError |
| CardFactory.FirstOtherPart | src/main/java/emi/lib/mtg/scryfall/ScryfallCardFactory.java:42 | the part found has a name other than the card's, and none is found only when every part has the card's name |
| CardFactory.NormalRecordMeaning | src/main/java/emi/lib/mtg/scryfall/ScryfallCardFactory.java:19-67 | the Normal special cases all end in createSimple, and only B.F.M.'s type line is changed, by prefixing "Creature " followed by the control character U+0097 and a space when it does not start with "Creature" |
| CardFactory.GrowsReflexive | src/main/java/emi/lib/mtg/scryfall/ScryfallCardFactory.java:12-120 | the "only adds" relation between registries holds from a state to itself |
| CardFactory.GrowsTransitive | src/main/java/emi/lib/mtg/scryfall/ScryfallCardFactory.java:12-120 | two steps that each only add together only add |
| CardFactory.ResolveKept | src/main/java/emi/lib/mtg/scryfall/ScryfallCardFactory.java:192-193 | growing the cards keeps every registered printing resolvable |
| CardFactory.NodeStep | src/main/java/emi/lib/mtg/scryfall/ScryfallCardFactory.java:186-190 | replacing a card by a grown card owning its printings keeps the registry invariant and only adds |
| CardFactory.Forgotten | src/main/java/emi/lib/mtg/scryfall/ScryfallCardFactory.java:176 | removing a pending record takes exactly its id out of the pending records and leaves the rest alone |
| CardFactory.WithCard | src/main/java/emi/lib/mtg/scryfall/ScryfallCardFactory.java:186 | cards.computeIfAbsent adds exactly the card id, keeps an existing card and otherwise creates one from the record with no faces or printings |
| CardFactory.WithFace | src/main/java/emi/lib/mtg/scryfall/ScryfallCardFactory.java:187 | a card's faces.computeIfAbsent keeps an existing face of the kind, otherwise stores the given one, and changes nothing else |
| CardFactory.SetRecord | src/main/java/emi/lib/mtg/scryfall/ScryfallCardFactory.java:188 | a set record is found exactly when its code is known |
| CardFactory.WithSet | src/main/java/emi/lib/mtg/scryfall/ScryfallCardFactory.java:188 | sets.computeIfAbsent adds exactly the code, keeps an existing set and otherwise creates an empty one holding the record (null when unknown) |
| CardFactory.WithPrinting | src/main/java/emi/lib/mtg/scryfall/ScryfallCardFactory.java:189 | a card's printings.computeIfAbsent keeps an existing printing and otherwise creates one of that card in that set, changing nothing else |
| CardFactory.WithPrintedFace | src/main/java/emi/lib/mtg/scryfall/ScryfallCardFactory.java:190 | a printing's faces.computeIfAbsent keeps an existing printed face and otherwise stores one pointing back at that printing |
| CardFactory.InSet | src/main/java/emi/lib/mtg/scryfall/ScryfallCardFactory.java:192 | set.printings.put registers the printing under its id in that set only |
| CardFactory.Listed | src/main/java/emi/lib/mtg/scryfall/ScryfallCardFactory.java:193 | printings.put registers the printing under its id and changes nothing else |
| CardFactory.ForgetStep | src/main/java/emi/lib/mtg/scryfall/ScryfallCardFactory.java:176 | removing a pending record keeps the registry invariant and only shrinks the pending records |
| CardFactory.CardStep | src/main/java/emi/lib/mtg/scryfall/ScryfallCardFactory.java:186 | getting or creating a card keeps the invariant and only adds |
| CardFactory.FaceStep | src/main/java/emi/lib/mtg/scryfall/ScryfallCardFactory.java:187 | getting or creating a face keeps the invariant and only adds |
| CardFactory.SetStep | src/main/java/emi/lib/mtg/scryfall/ScryfallCardFactory.java:188 | getting or creating a set keeps the invariant and only adds |
| CardFactory.PrintingStep | src/main/java/emi/lib/mtg/scryfall/ScryfallCardFactory.java:189 | getting or creating a printing keeps the invariant and only adds |
| CardFactory.PrintedFaceStep | src/main/java/emi/lib/mtg/scryfall/ScryfallCardFactory.java:190 | getting or creating a printed face keeps the invariant and only adds |
| CardFactory.InSetStep | src/main/java/emi/lib/mtg/scryfall/ScryfallCardFactory.java:192 | registering an existing printing in a set keeps the invariant and only adds |
| CardFactory.ListedStep | src/main/java/emi/lib/mtg/scryfall/ScryfallCardFactory.java:193 | registering an existing printing keeps the invariant and only adds |
| CardFactory.FindFace | src/main/java/emi/lib/mtg/scryfall/ScryfallCardFactory.java:360-361 | the adventure's main part is a face whose type line starts with "Creature" and its adventure part one whose type line ends with "Adventure"; a null type line on the way throws, and no such face is an AssertionError |
| CardFactory.RemoveShrinks | src/main/java/emi/lib/mtg/scryfall/ScryfallCardFactory.java:176 | removing a pending record shrinks the pending records by one |
| CardFactory.SimpleBuiltMeaning | src/main/java/emi/lib/mtg/scryfall/ScryfallCardFactory.java:170-194 | createSimple past its checks: the card, its front face, the set and the printing exist, existing ones kept, the front is printed, and the printing is registered in its set and globally |
| CardFactory.TwoFaceBuiltMeaning | src/main/java/emi/lib/mtg/scryfall/ScryfallCardFactory.java:196-266 | a two-face builder: the card, both faces, the set and the printing exist, existing ones kept, both faces are printed with their face records, and the printing is registered |
| CardFactory.MeldBuiltFirstCard | src/main/java/emi/lib/mtg/scryfall/ScryfallCardFactory.java:318-320 | createMeld's first card is the active front's, with its front face and the back |
| CardFactory.MeldBuiltFirstPrinting | src/main/java/emi/lib/mtg/scryfall/ScryfallCardFactory.java:333-335 | createMeld's first printing is the active front's, with front and back printed |
| CardFactory.MeldBuiltSecondCard | src/main/java/emi/lib/mtg/scryfall/ScryfallCardFactory.java:322-324 | createMeld's second card shares the first card's back face unless it had one, and otherwise is the passive front's card with its front |
| CardFactory.MeldBuiltSecondPrinting | src/main/java/emi/lib/mtg/scryfall/ScryfallCardFactory.java:337-339 | createMeld's second printing is the passive front's, with its front and the shared back printed |
| CardFactory.MeldBuiltRest | src/main/java/emi/lib/mtg/scryfall/ScryfallCardFactory.java:312-328 | after createMeld the three parts are no longer pending and the active front's set exists |
| CardFactory.MeldBuiltRegisters | src/main/java/emi/lib/mtg/scryfall/ScryfallCardFactory.java:341-345 | createMeld registers both printings in the active front's set and globally, changing no card |
| CardFactory.SimpleRunKeeps | src/main/java/emi/lib/mtg/scryfall/ScryfallCardFactory.java:170-194 | createSimple keeps the registry invariant and only adds, whatever it does |
| CardFactory.TwoFaceRunKeeps | src/main/java/emi/lib/mtg/scryfall/ScryfallCardFactory.java:196-266 | the two-face builders keep the registry invariant and only add, including when they throw |
| CardFactory.AdventureRunKeeps | src/main/java/emi/lib/mtg/scryfall/ScryfallCardFactory.java:348-373 | createAdventure keeps the registry invariant and only adds, including when a part is missing |
| CardFactory.MeldRunKeeps | src/main/java/emi/lib/mtg/scryfall/ScryfallCardFactory.java:306-346 | createMeld keeps the registry invariant and only adds, including when the parts are not found |
| CardFactory.CreateRunKeeps | src/main/java/emi/lib/mtg/scryfall/ScryfallCardFactory.java:12-120 | create() keeps the registries consistent (pending records under their ids, printings owned by their cards, registered printings resolvable) and only adds to them, whatever it throws |
| CardFactory.CreateRunAccounts | src/main/java/emi/lib/mtg/scryfall/ScryfallCardFactory.java:12-120 | create() on a pending record registers printings only of records that were pending, and every record it takes off the pending map has its printing registered, is a token, emblem, meld back or nothing createSimple builds, or is the record it threw on, which is one whose layout, type line, faces or parts it may throw on |
| CardFactory.SimpleRunAccounts | src/main/java/emi/lib/mtg/scryfall/ScryfallCardFactory.java:170-194 | createSimple takes only its record off the pending map, and registers its printing unless it builds nothing; it throws only on a null type line |
| CardFactory.TwoFaceRunAccounts | src/main/java/emi/lib/mtg/scryfall/ScryfallCardFactory.java:196-266 | createSplit, createFlip and createTransform take only their record, register its printing, and throw only without two face records |
| CardFactory.AdventureRunAccounts | src/main/java/emi/lib/mtg/scryfall/ScryfallCardFactory.java:348-373 | createAdventure takes only its record, registers its printing on success, and throws only when the main or adventure part is missing |
| CardFactory.MeldRunAccounts | src/main/java/emi/lib/mtg/scryfall/ScryfallCardFactory.java:306-346 | createMeld registers the two fronts' printings and takes off the pending map only them and the back, a meld back |
| CardFactory.SimpleBuiltRegisters | src/main/java/emi/lib/mtg/scryfall/ScryfallCardFactory.java:170-194 | createSimple past its checks registers its record's printing and takes that record, and only it, off the pending map |
| CardFactory.TwoFaceBuiltRegisters | src/main/java/emi/lib/mtg/scryfall/ScryfallCardFactory.java:196-266 | a two-face builder past its checks registers its record's printing and takes that record, and only it, off the pending map |
| CardFactory.MeldBuiltRegisters2 | src/main/java/emi/lib/mtg/scryfall/ScryfallCardFactory.java:306-346 | createMeld past its search registers exactly the two fronts' printings and takes exactly the three parts off the pending map |
| CardFactory.SimpleRunOutcome | src/main/java/emi/lib/mtg/scryfall/ScryfallCardFactory.java:170-194 | createSimple drops the record, fails with a NullPointerException exactly when the type line is null, builds nothing for a "Token" or "Card" type line, and otherwise leaves the card, front, set and registered printing |
| CardFactory.TwoFaceRunOutcome | src/main/java/emi/lib/mtg/scryfall/ScryfallCardFactory.java:196-266 | a two-face builder fails unchanged without two faces, and otherwise leaves the card with both faces printed and registered, the record dropped |
| CardFactory.AdventureRunOutcome | src/main/java/emi/lib/mtg/scryfall/ScryfallCardFactory.java:348-373 | createAdventure makes the card and set and drops the record before looking for the parts; with both found, Front and Other are printed and registered |
| CardFactory.MeldRunOutcome | src/main/java/emi/lib/mtg/scryfall/ScryfallCardFactory.java:306-346 | createMeld fails unchanged without its parts, and otherwise drops the three parts and builds both cards sharing the back, each printed and registered |
| CardFactory.CreateRunOutcome | src/main/java/emi/lib/mtg/scryfall/ScryfallCardFactory.java:12-120 | what create() leaves is the outcome of the builder its layout selects: nothing for a null or unexpected layout, the record dropped for tokens and emblems |
| CardFactory.SimpleRunShrinks | src/main/java/emi/lib/mtg/scryfall/ScryfallCardFactory.java:176 | createSimple always removes its record from the pending records |
| CardFactory.TwoFaceRunShrinks | src/main/java/emi/lib/mtg/scryfall/ScryfallCardFactory.java:204 | a successful two-face builder removes its record, and no builder adds pending records |
| CardFactory.AdventureRunShrinks | src/main/java/emi/lib/mtg/scryfall/ScryfallCardFactory.java:356 | a successful createAdventure removes its record |
| CardFactory.MeldRunShrinks | src/main/java/emi/lib/mtg/scryfall/ScryfallCardFactory.java:314-316 | createMeld never adds pending records and a successful one removes three |
| CardFactory.CreateRunShrinks | src/main/java/emi/lib/mtg/scryfall/ScryfallCardFactory.java:12-120 | create() on a pending record never adds pending records, a success removes at least one, and on every path but the meld it removes the record itself |
| CardFactory.MeldRemovalShrinks | src/main/java/emi/lib/mtg/scryfall/ScryfallCardFactory.java:314-316 | the meld's three parts are distinct pending records, so removing them takes three entries away |
| CardFactory.Registry.constructor | src/main/java/emi/lib/mtg/scryfall/ScryfallCardFactory.java:12-17 | the registries start empty over the given set records and pending card records |
| CardFactory.Registry.Forget | src/main/java/emi/lib/mtg/scryfall/ScryfallCardFactory.java:176 | the method removes a pending record exactly as Forgotten says |
| CardFactory.Registry.CardFor | src/main/java/emi/lib/mtg/scryfall/ScryfallCardFactory.java:186 | the method gets or creates a card exactly as WithCard says |
| CardFactory.Registry.FaceFor | src/main/java/emi/lib/mtg/scryfall/ScryfallCardFactory.java:187 | the method gets or creates a face exactly as WithFace says, returning the face stored |
| CardFactory.Registry.ShareFace | src/main/java/emi/lib/mtg/scryfall/ScryfallCardFactory.java:324 | the method stores a given face unless the card has one of that kind |
| CardFactory.Registry.SetFor | src/main/java/emi/lib/mtg/scryfall/ScryfallCardFactory.java:188 | the method gets or creates a set exactly as WithSet says |
| CardFactory.Registry.PrintingFor | src/main/java/emi/lib/mtg/scryfall/ScryfallCardFactory.java:189 | the method gets or creates a printing exactly as WithPrinting says |
| CardFactory.Registry.PrintedFaceFor | src/main/java/emi/lib/mtg/scryfall/ScryfallCardFactory.java:190 | the method gets or creates a printed face exactly as WithPrintedFace says |
| CardFactory.Registry.PutInSet | src/main/java/emi/lib/mtg/scryfall/ScryfallCardFactory.java:192 | the method registers a printing in a set exactly as InSet says |
| CardFactory.Registry.PutListed | src/main/java/emi/lib/mtg/scryfall/ScryfallCardFactory.java:193 | the method registers a printing exactly as Listed says |
| CardFactory.Registry.StartTwoFace | src/main/java/emi/lib/mtg/scryfall/ScryfallCardFactory.java:202-206 | the two-face builders' first steps: the card, the removal of the record and its set |
| CardFactory.Registry.TwoFacesFor | src/main/java/emi/lib/mtg/scryfall/ScryfallCardFactory.java:208-209 | the two faces of a card, each the existing one or a new one from its face record |
| CardFactory.Registry.PrintTwo | src/main/java/emi/lib/mtg/scryfall/ScryfallCardFactory.java:211-214 | the record's printing with both its faces printed |
| CardFactory.Registry.Enroll | src/main/java/emi/lib/mtg/scryfall/ScryfallCardFactory.java:192-193 | a printing registered in its set and then globally |
| CardFactory.Registry.SecondMeldCard | src/main/java/emi/lib/mtg/scryfall/ScryfallCardFactory.java:322-324 | createMeld's second card with the passive front and the shared back |
| CardFactory.Registry.EnrollTwo | src/main/java/emi/lib/mtg/scryfall/ScryfallCardFactory.java:341-345 | two printings registered in the set and then globally |
| CardFactory.Registry.MeldCardsFor | src/main/java/emi/lib/mtg/scryfall/ScryfallCardFactory.java:314-328 | createMeld's removals, its two cards and its set |
| CardFactory.Registry.PrintMeld | src/main/java/emi/lib/mtg/scryfall/ScryfallCardFactory.java:333-339 | createMeld's two printings, each with its front and the shared back printed |
| CardFactory.Registry.BuildMeld | src/main/java/emi/lib/mtg/scryfall/ScryfallCardFactory.java:314-345 | createMeld past its search for the parts |
| CardFactory.Registry.CreateSimple | src/main/java/emi/lib/mtg/scryfall/ScryfallCardFactory.java:170-194 | createSimple changes the registries exactly as the specification SimpleRun says, whose outcome SimpleRunOutcome states |
| CardFactory.Registry.CreateSplit | src/main/java/emi/lib/mtg/scryfall/ScryfallCardFactory.java:196-218 | createSplit changes the registries as TwoFaceRun with Left and Right says |
| CardFactory.Registry.CreateFlip | src/main/java/emi/lib/mtg/scryfall/ScryfallCardFactory.java:220-242 | createFlip changes the registries as TwoFaceRun with Front and Flipped says |
| CardFactory.Registry.CreateTransform | src/main/java/emi/lib/mtg/scryfall/ScryfallCardFactory.java:244-266 | createTransform changes the registries as TwoFaceRun with Front and Transformed says |
| CardFactory.Registry.CreateAdventure | src/main/java/emi/lib/mtg/scryfall/ScryfallCardFactory.java:348-373 | createAdventure changes the registries as AdventureRun says |
| CardFactory.Registry.CreateMeld | src/main/java/emi/lib/mtg/scryfall/ScryfallCardFactory.java:306-346 | createMeld changes the registries as MeldRun says |
| CardFactory.Registry.Create | src/main/java/emi/lib/mtg/scryfall/ScryfallCardFactory.java:12-120 | create() changes the registries exactly as CreateRun says, so CreateRunKeeps, CreateRunOutcome and CreateRunShrinks hold of it |
| DataSource.KeptParts | src/main/java/emi/lib/mtg/scryfall/ScryfallDataSource.java:147 | removing the token and combo-piece parts keeps exactly the other parts, each from the original list |
| DataSource.Cleaned | src/main/java/emi/lib/mtg/scryfall/ScryfallDataSource.java:138-152 | a kept record is written with its legalities unchanged (the removal at line 139 removes nothing) and its token and combo-piece parts stripped, the part list null exactly when it was null or held only such parts; every other modelled field is unchanged, and null legalities throw NullPointerException |
| DataSource.CleanedAsIntended | src/main/java/emi/lib/mtg/scryfall/ScryfallDataSource.java:138-152 | with the corrected removal a kept record is written without the "duel", "oldschool" and "unrecognized" legalities, every other legality and field as Cleaned leaves it, and null legalities throw |
| DataSource.WriteSets | src/main/java/emi/lib/mtg/scryfall/ScryfallDataSource.java:101-116 | the loop over the API's sets writes exactly the entries SetsWritten describes and collects the token sets' codes as dropped |
| DataSource.WriteCards | src/main/java/emi/lib/mtg/scryfall/ScryfallDataSource.java:120-165 | the loop over the bulk cards writes exactly the entries CardsWritten describes, each record as Cleaned leaves it, with its legalities as read |
| DataSource.Update | src/main/java/emi/lib/mtg/scryfall/ScryfallDataSource.java:86-182 | update() writes the "sets" section and then the "printings" section, exactly as FileWritten describes, with each kept record's legalities as read |
| DataSource.DroppedNamesAre | src/main/java/emi/lib/mtg/scryfall/ScryfallDataSource.java:34-37 | the formats dropped from the written legalities are Duel, Old School and Unrecognized, serialised as "duel", "oldschool" and "unrecognized" |
| DataSource.DropFormatsMeaning | src/main/java/emi/lib/mtg/scryfall/ScryfallDataSource.java:139 | the intended removal leaves no dropped format and keeps every other legality as it was |
| DataSource.DropFormatsAsWrittenKeepsDuel | src/main/java/emi/lib/mtg/scryfall/ScryfallDataSource.java:139 | as written, the removal by enum value from a map keyed by format name removes nothing, so a "duel" legality survives |
| DataSource.SetsWrittenMeaning | src/main/java/emi/lib/mtg/scryfall/ScryfallDataSource.java:101-116 | writing the sets fails with a NullPointerException exactly when a non-token set has no code; otherwise every entry is a non-token set filed under its own code, and the names written are exactly the codes of the non-token sets |
| DataSource.NonTokenSets | src/main/java/emi/lib/mtg/scryfall/ScryfallDataSource.java:102-109 | the sets the loop keeps: none is a token set, each is one of the API's, and every non-token set of the API is among them |
| DataSource.SetsWrittenInOrder | src/main/java/emi/lib/mtg/scryfall/ScryfallDataSource.java:101-116 | a written "sets" section has one entry per non-token set, and its i-th entry holds the i-th non-token set in the API's order |
| DataSource.CardsWrittenMeaning | src/main/java/emi/lib/mtg/scryfall/ScryfallDataSource.java:125-164 | writing the printings fails with NullPointerException exactly when a kept record has null legalities; otherwise every entry is keyed by its record id's text, is no token, emblem or art series, keeps no token or combo-piece part, and carries legalities, and exactly the records that are not tokens, emblems, art series or in a dropped set are written |
| DataSource.CardsWrittenFrom | src/main/java/emi/lib/mtg/scryfall/ScryfallDataSource.java:139-160 | every entry written is Cleaned of some record that update() kept |
| DataSource.UpdateThenLoad | src/main/java/emi/lib/mtg/scryfall/ScryfallDataSource.java:86-235 | what update() writes, loadData reads back without an IOException: the sets read are the API's non-token sets by code, and the pending records are exactly the records update() kept |
| DataSource.ReadSets | src/main/java/emi/lib/mtg/scryfall/ScryfallDataSource.java:207-220 | the loop over the "sets" section computes SetsReadFrom |
| DataSource.ReadCards | src/main/java/emi/lib/mtg/scryfall/ScryfallDataSource.java:222-235 | the loop over the "printings" section computes CardsReadFrom |
| DataSource.RemoveFromSubmapShrinks | src/main/java/emi/lib/mtg/scryfall/ScryfallDataSource.java:240-250 | removing the record create() failed on from the pending map strictly shrinks it, so the loop ends |
| DataSource.ScryfallDataSource.constructor | src/main/java/emi/lib/mtg/scryfall/ScryfallDataSource.java:49-53 | a new data source has no cards, printings or sets |
| DataSource.LoadStep | src/main/java/emi/lib/mtg/scryfall/ScryfallDataSource.java:240-250 | one turn of the loading loop, a create() call and, when it throws, the removal of the record, keeps the pending map within the records read, registers printings only of records read, and leaves every record taken off the map with its printing, one create() registers nothing for, or one create() may throw on |
| DataSource.ScryfallDataSource.LoadData | src/main/java/emi/lib/mtg/scryfall/ScryfallDataSource.java:195-251 | loadData clears the registries; a malformed file is an IOException with them left empty; otherwise it drains the pending records through create(), leaving consistent registries that register printings only of records read, a printing of every record read that is not a token or emblem, a meld back, a record createSimple builds nothing for, or one create() may throw on; it fails only with a NullPointerException when a failing record has no URI |
| DataSource.SetsReadMeaning | src/main/java/emi/lib/mtg/scryfall/ScryfallDataSource.java:207-220 | reading the sets fails with an IOException exactly when an entry's name is not its set's code; otherwise each set read is filed under its code and is not a token set |
| DataSource.CardsReadMeaning | src/main/java/emi/lib/mtg/scryfall/ScryfallDataSource.java:222-235 | reading the printings fails with an IOException exactly when an entry's name is not its record's id text; otherwise each record is filed under its id and is not a token or double-faced token |
| DataSource.FileReadMeaning | src/main/java/emi/lib/mtg/scryfall/ScryfallDataSource.java:204-238 | reading a file fails, always with an IOException, exactly when a section name or an entry name is wrong |
| ScryfallPrints.CompareNumbersAntisymmetric | src/main/java/emi/lib/mtg/scryfall/ScryfallPrint.java:56-116 | the collector-number comparator on nullable numbers throws for a null either way round, and otherwise swapping its arguments negates the result |
| ScryfallPrints.CompareNumbersIsAntisymmetric | src/main/java/emi/lib/mtg/scryfall/ScryfallPrint.java:56-116 | the comparator is antisymmetric as a whole, the property the sort relies on |
| ScryfallPrints.InsertPermutes | src/main/java/emi/lib/mtg/scryfall/ScryfallPrint.java:195 | inserting into the sorted run adds the element and nothing else |
| ScryfallPrints.InsertOrdered | src/main/java/emi/lib/mtg/scryfall/ScryfallPrint.java:195 | inserting into an ordered run under an antisymmetric comparator keeps it ordered |
| ScryfallPrints.SortPermutes | src/main/java/emi/lib/mtg/scryfall/ScryfallPrint.java:195 | a sort that does not throw returns a permutation of its input, for any comparator |
| ScryfallPrints.SortMeaning | src/main/java/emi/lib/mtg/scryfall/ScryfallPrint.java:195 | a sort that does not throw returns an ordered permutation of its input |
| ScryfallPrints.SortTwo | src/main/java/emi/lib/mtg/scryfall/ScryfallPrint.java:195 | two numbers the comparator orders strictly come out in that order, whichever way round they came in |
| ScryfallPrints.SameSetNumbers | src/main/java/emi/lib/mtg/scryfall/ScryfallPrint.java:192-194 | the numbers taken are exactly the collector numbers of the card's prints in the same set, no more of them than there are prints |
| ScryfallPrints.FirstIndex | src/main/java/emi/lib/mtg/scryfall/ScryfallPrint.java:198-203 | the index found holds the number and no earlier index does |
| ScryfallPrints.VariationMeaning | src/main/java/emi/lib/mtg/scryfall/ScryfallPrint.java:189-211 | the numbers ranked are a rearrangement of the same-set prints' numbers; the variation is between 1 and the number of same-set prints (1 when there are none); when the print's number is among them it is the 1-based position of its first occurrence in the sorted numbers, and otherwise 1 |
| ScryfallPrints.VariationSorted | src/main/java/emi/lib/mtg/scryfall/ScryfallPrint.java:193-196 | when variation() does not throw, the numbers it ranks against are in collector-number order |
| ScryfallPrints.AddElemKeepsNoDuplicates | src/main/java/emi/lib/mtg/scryfall/ScryfallPrint.java:143 | adding to an insertion-ordered set keeps it free of duplicates and adds exactly the element |
| ScryfallPrints.AddedKeepsInv | src/main/java/emi/lib/mtg/scryfall/ScryfallPrint.java:139-151 | addFace keeps the printed-face registry consistent: faces without duplicates, main faces among them, each listed face among the faces |
| ScryfallPrints.AddedMeaning | src/main/java/emi/lib/mtg/scryfall/ScryfallPrint.java:139-151 | after addFace the printed face is listed under its face and among the faces, which gained it and nothing else, and the main faces gained it exactly when the face is main |
| ScryfallPrints.AddedIdempotent | src/main/java/emi/lib/mtg/scryfall/ScryfallPrint.java:141 | with value equality a second addFace of the same printed face changes nothing |
| ScryfallPrints.AddedAsWrittenNeverFinds | src/main/java/emi/lib/mtg/scryfall/ScryfallPrint.java:140-141 | as written, the printed face is a new object compared by identity, so the lookup never finds it and every call appends |
| ScryfallPrints.AddedAsWrittenTwice | src/main/java/emi/lib/mtg/scryfall/ScryfallPrint.java:139-151 | as written, adding the same printed face twice lists it twice; with value equality it is listed once |
| ScryfallPrints.ScryfallPrint.constructor | src/main/java/emi/lib/mtg/scryfall/ScryfallPrint.java:127-137 | a new print has no printed faces, no main faces and no variation yet (-1) |
| ScryfallPrints.ScryfallPrint.AddFace | src/main/java/emi/lib/mtg/scryfall/ScryfallPrint.java:139-151 | addFace returns the printed face built from its arguments and updates the registry exactly as Added says |
| ScryfallPrints.ScryfallPrint.FacesOf | src/main/java/emi/lib/mtg/scryfall/ScryfallPrint.java:168-172 | faces(face) throws for a face never added and otherwise lists exactly the printed faces registered under it |
| ScryfallPrints.ScryfallPrint.Variation | src/main/java/emi/lib/mtg/scryfall/ScryfallPrint.java:189-211 | variation() computes VariationOf once and then returns the stored value; a sort that throws leaves it uncomputed |
| ScryfallPrints.PrintEqualsIsEquivalence | src/main/java/emi/lib/mtg/scryfall/ScryfallPrint.java:243-251 | print equality by id is reflexive, symmetric and transitive, and equal prints hash alike |
| LegacyCards.PartTextMeaning | src/main/java/emi/lib/mtg/scryfall/ScryfallCard.java:78-92 | a record face shows each of the record's text fields where it is set and the empty string where it is null |
| LegacyCards.FlippedSharesUpright | src/main/java/emi/lib/mtg/scryfall/ScryfallCard.java:288-312 | a flipped face reports its upright face's mana cost, colour, colour identity and colour indicator, but its own name and type line |
| LegacyCards.ColoursOfBody | src/main/java/emi/lib/mtg/scryfall/ScryfallCard.java:26-37 | a face entry's colour and colour identity are its mana cost's colours and it has no indicator; a whole record's indicator is its colours minus its mana cost's; every indicator lies within the colour and is disjoint from the mana cost's colours |
| LegacyCards.MeldBackPart | src/main/java/emi/lib/mtg/scryfall/ScryfallCard.java:374 | the part found ends its uri in "b" and is one of the parts; no such element is thrown exactly when every part has a uri and none ends in "b" |
| LegacyCards.OtherPart | src/main/java/emi/lib/mtg/scryfall/ScryfallCard.java:382 | the part found is one of the parts and is named otherwise than the card; no such element is thrown exactly when every part carries the card's name |
| LegacyCards.TwoEntries | src/main/java/emi/lib/mtg/scryfall/ScryfallCard.java:389-397 | the first two face entries when there are at least two; a null entry list throws a NullPointerException and a shorter one an index error |
| LegacyCards.FrontOnlyLayouts | src/main/java/emi/lib/mtg/scryfall/ScryfallCard.java:360-368 | plane, token, emblem, scheme, leveler, vanguard and phenomenon cards get exactly one Front face from the whole record |
| LegacyCards.TwoEntryLayouts | src/main/java/emi/lib/mtg/scryfall/ScryfallCard.java:387-398 | flip cards get an upright Front face from the first entry and a Flipped face from the second sharing its mana cost and colour; split cards get Left and Right from the two entries; both succeed exactly when there are two entries |
| LegacyCards.BackSideLayouts | src/main/java/emi/lib/mtg/scryfall/ScryfallCard.java:370-385 | meld and transform cards get the whole record as Front and the looked-up back-side record as Transformed, found by the uri ending in "b" or by the other name; a null parts list throws |
| LegacyCards.NormalLayout | src/main/java/emi/lib/mtg/scryfall/ScryfallCard.java:324-358 | a normal record with face entries gets no faces unless it is the fire-penguin card, which gets Front and Flipped from its entries; without entries it gets one Front face, always so when it has no two-part list or is one of the unsupported multipart names |
| LegacyCards.FacesForWellShaped | src/main/java/emi/lib/mtg/scryfall/ScryfallCard.java:318-404 | every face set the constructor builds puts an upright face only under Front and a flipped face under Flipped beside the upright face of the same entry |
| LegacyCards.LegacyFace.constructor | src/main/java/emi/lib/mtg/scryfall/ScryfallCard.java:22-24 | a new face holds its kind, body and upright face and has nothing cached |
| LegacyCards.LegacyFace.ManaCost | src/main/java/emi/lib/mtg/scryfall/ScryfallCard.java:109-116 | the mana cost is the parse of the face's mana-cost text, cached on the face itself, while a flipped face asks its upright face; the colour caches are untouched |
| LegacyCards.LegacyFace.Type | src/main/java/emi/lib/mtg/scryfall/ScryfallCard.java:118-125 | the type line is the parse of the face's type text, cached on first use, with nothing else changed |
| LegacyCards.LegacyFace.InternalColor | src/main/java/emi/lib/mtg/scryfall/ScryfallCard.java:94-97 | a record face's colour is its mapped colours, never an EnumSet; an entry face's the colours of its mana cost, an EnumSet as the library's cost says; a flipped face's its upright face's |
| LegacyCards.LegacyFace.InternalColorIdentity | src/main/java/emi/lib/mtg/scryfall/ScryfallCard.java:99-102 | a record face's colour identity is its mapped identity, never an EnumSet; an entry face's its colour; a flipped face's its upright face's |
| LegacyCards.EnumSetCopyOf | src/main/java/emi/lib/mtg/scryfall/ScryfallCard.java:31 | `EnumSet.copyOf` copies an EnumSet or a non-empty set, and throws IllegalArgumentException on any other empty set |
| LegacyCards.ColourlessRecordFaceThrows | src/main/java/emi/lib/mtg/scryfall/ScryfallCard.java:26-37 | on a whole-record face the colour copy throws exactly when the mapped colours are empty, which includes null or empty colours, and the identity copy exactly when the mapped identity is empty |
| LegacyCards.LegacyFace.InitColors | src/main/java/emi/lib/mtg/scryfall/ScryfallCard.java:26-37 | when all three colour caches are set nothing changes; otherwise it throws IllegalArgumentException exactly when the colour copy or the identity copy throws, a failed colour copy leaves every cache as it was, a successful one caches colour and indicator (colour minus the mana cost's colours), and success also caches the identity |
| LegacyCards.LegacyFace.InitColorsIntended | src/main/java/emi/lib/mtg/scryfall/ScryfallCard.java:26-37 | `initColors` with each set copied into a fresh EnumSet: it never throws, and leaves colour, indicator and identity cached |
| LegacyCards.LegacyFace.ColorIndicator | src/main/java/emi/lib/mtg/scryfall/ScryfallCard.java:53-57 | throws IllegalArgumentException exactly when `initColors` does; otherwise the colour indicator, the face's colour minus its mana cost's colours, cached |
| LegacyCards.LegacyFace.Color | src/main/java/emi/lib/mtg/scryfall/ScryfallCard.java:59-63 | throws IllegalArgumentException exactly when `initColors` does; otherwise the face's internal colour, cached |
| LegacyCards.LegacyFace.ColorIdentity | src/main/java/emi/lib/mtg/scryfall/ScryfallCard.java:65-69 | throws IllegalArgumentException exactly when `initColors` does; otherwise the face's internal colour identity, cached |
| LegacyCards.LegacyCard.constructor | src/main/java/emi/lib/mtg/scryfall/ScryfallCard.java:318-322 | a new card has one fresh face per body, each under its own kind and with nothing cached |
| LegacyCards.LegacyCard.FaceOf | src/main/java/emi/lib/mtg/scryfall/ScryfallCard.java:411-414 | face(kind) gives a face exactly when one was put under that kind, and it is the face built from that kind's body |
| LegacyCards.LegacyCard.Faces | src/main/java/emi/lib/mtg/scryfall/ScryfallCard.java:406-409 | faces() holds exactly the faces put under some kind |
| LegacyCards.BuildFaces | src/main/java/emi/lib/mtg/scryfall/ScryfallCard.java:318-404 | the constructor's puts give one fresh face for each kind that has a body, and the flipped face holds the Front face |
| LegacyCards.PutFace | src/main/java/emi/lib/mtg/scryfall/ScryfallCard.java:390-391 | one put adds the face for its kind if that kind has a body, holding the Front face when it is flipped, and keeps the faces already built |
| LegacyCards.NewCard | src/main/java/emi/lib/mtg/scryfall/ScryfallCard.java:318-404 | the constructor succeeds exactly when the dispatch on the layout does, throws the dispatch's exception otherwise, and builds a valid card whose faces have the dispatched bodies |

## Left out

- File, gzip and network I/O. This covers the Scryfall HTTP client, image and tag sources, search, preferences and the temp-file copy in `update()`. The set list and bulk card list `update()` fetches are parameters, and the data file is the sequence of its entries.
- Gson and msgpack binding of records to fields. A whole set or card record is one token, and the MessagePack reflection layer is not part of this model.
- `update()`'s directory creation, console progress output, the `progress` callback, its floating-point fractions, and the nulling of the purchase, related, prints-search, rulings and set-search URI fields, because the record model does not carry those fields.
- `needsUpdate` and the update interval: these are clock reads and time arithmetic.
- `System.out`/`System.err` messages, such as the "add support for fancy multipart card" notes. They change no state.
- Exception messages. Only the exception's kind is modelled.
- HashMap iteration order. `loadData()`'s drain loop takes any pending record, and every property is proved for every choice.
- `synchronized` and `volatile`. Memoisation is sequential, because the graph load is a single-threaded loop.
- `ScryfallFace.manaValue` (a `double`), `abilities()`, `toString()` and the print's `releaseDate`, `promo`, `treatment`, `multiverseId` and `mtgoCatalogId` accessors. These are floating point, foreign library types or plain field reads with nothing to prove.
- `Mana.Value.parse`, `TypeLine.Basic.parse`, `TypeLine.landColorIdentity`, `BasicManaCost.parse`, `BasicCardTypeLine.parse`, `Color.Combination` and UUID hashing: library code that is not part of this model. These are uninterpreted deterministic parameters, and colour combinations are sets of library colours.
- ScryfallFaces.ScryfallFace.ColorIdentity: `Mana.Symbol.symbolsIn` (ScryfallFace.java:71) is library code, modelled as `Library.symbolColors`, a total function of the nullable rules text. It is assumed not to throw when that text is null; if it does, `colorIdentity()` throws on a face without rules text where the model returns a value.
- LegacyCards.LegacyFace.InitColors: whether an older-library `ManaCost.color()` set is an EnumSet is the parameter `manaColorsIsEnumSet`, because that class is not part of this model. It decides whether a colourless face entry throws in `EnumSet.copyOf`.
- ScryfallPrints.Sort: a stable insertion sort with the collector-number comparator stands in for `List.sort` (TimSort). For a comparator that does not throw, both give the same order. When a comparison throws (a null number), TimSort can make different comparisons, so which lists throw may differ.
- LegacyCards.NewCard: the constructor's empty `printings` BiMap is left out, because it is only created here and filled by code that is not part of this model.
- LegacyCards.PartTextMeaning: `PartFace` and `FaceFace` overwrite the null fields of the shared API record in place. The model gives each face its own defaulted copy, so another holder of the same record does not see the change.
- LegacyCards.BackSideLayouts: the meld branch tests `uri.toString().endsWith("b")`. The model tests the uri's path, which ends the same way unless the uri carries a query or fragment.
- LegacyCards.NormalLayout: the two-part Normal branch matches the other part's uri path against `/cards/t[a-z]{3}/[0-9]+`. Both outcomes put the same Front face, so only the dereferences that can throw are modelled, not the pattern.
- Guava BiMaps are maps whose values the model keeps distinct. Removal of a value, as in `jsonCards.values().remove(x)`, is removal of the record's id, which is its key.
- ApiEnum.ReadUnknown: `Lower` folds only the ASCII letters A to Z, while Java's `toLowerCase()` folds every Unicode capital (the Kelvin sign in "TO\u212AEN" gives "token") and follows the default locale (in a Turkish locale "ART_SERIES" lowercases with a dotless i). A name the model reads as unknown can be known to Java, and the other way round.
- ApiEnum.OrUnrecognizedMeaning: the same ASCII-only `Lower`, so the constant found for a name with non-ASCII capitals, or in a Turkish locale, may differ from Java's. `name` is not nullable here, whereas Java throws NullPointerException on a null name.
- ApiEnum.OrUnrecognized: the same ASCII-only `Lower`.
- ApiEnum.Read: the same ASCII-only `Lower`, before the underscores are stripped.
- DataSource.CardsWrittenMeaning: a record's `id` and `set` fields are not nullable in the model, although the Java fields are. A record without an id would throw NullPointerException at `card.id.toString()` in `update()` (ScryfallDataSource.java:154), which the model never reaches.
- DataSource.CardsReadMeaning: for the same reason, the NullPointerException at `card.id.toString()` in `loadData()` (ScryfallDataSource.java:227) is not modelled.
- Util.MapColorMeaning: `Unrecognized` has a null library colour (Color.java:9) and the model drops it from the combination. This assumes the card library's colour collector ignores null. That collector is not part of this model, and if it rejects null, `mapColor` throws on a set holding `Unrecognized`.
- DataSource.ScryfallDataSource.LoadData: which records create() throws on depends on the parts still pending, so the contract says only that a record without a printing is one create() may throw on, not that it did.
- JsonSerde.Json.StartWriting: the IOException from closing an incomplete document comes from Gson's `JsonWriter.close()`, which is not part of this model. After it the old writer is closed, and the model keeps its output.
- CollectorNumber.UnrecognisedCompareAsStrings: `StrCompare` compares Dafny characters, which are Unicode scalar values, while `String.compareTo` compares UTF-16 code units. The two orders differ when a character above U+FFFF, stored as a surrogate pair, meets a character from U+E000 to U+FFFF. The same applies to the string comparisons inside the ordinary, year-coded, Arena and List comparisons (CollectorNumber.CompareAntisymmetric and the lemmas beside it).
- JsonSerde.Json.NextSet, JsonSerde.Json.NextCard and the other read methods of JsonSerde.Json and MessagePackSerde.MessagePack: a read that fails leaves the read position where it was. Gson's `JsonReader` and the msgpack unpacker have already consumed the tokens they read before the exception, so the model does not capture what a read after a failed read sees.
- MirrorSet.MirrorSet.RemoveAsWritten: the argument is never null in the model. Java's `remove(null)` throws NullPointerException at `o.hashCode()` as soon as it reaches an entry with a non-null value, and returns false on an empty map.
- The card library's own types (`Card.Face.Kind`, frames, rarities, formats) appear only as the constants the modelled code uses.

## Findings

| source | as written | input that shows it | evidently intended | confidence | as-written member | corrected member |
|---|---|---|---|---|---|---|
| src/main/java/emi/lib/mtg/scryfall/ScryfallDataSource.java:139 | `DROPPED_FORMATS.forEach(card.legalities::remove)` removes `GameFormat` constants from a `Map<String, Legality>`; no key is ever equal, so nothing is removed | a record whose legalities hold `"duel"`: the entry is still written to the data file | the entries named by the dropped formats' serialised names ("duel", "oldschool", "unrecognized") are removed | high; not executed | DataSource.DropFormatsAsWrittenKeepsDuel | DataSource.CleanedAsIntended |
| src/main/java/emi/lib/mtg/scryfall/ScryfallPrint.java:139-151 | `addFace` builds a new printed face and then looks it up by identity in `facesDict`; a printed face without its own `equals` is never found, so each call appends again | two `addFace` calls with the same face and the same records: `faces` lists two printed faces with equal fields | a repeated `addFace` returns the printed face already registered and changes nothing | medium (the six-argument printed-face class it constructs is not part of this model, so a value `equals` there would remove the discrepancy); not executed | ScryfallPrints.AddedAsWrittenTwice | ScryfallPrints.AddedIdempotent |
| src/main/java/emi/lib/mtg/scryfall/util/MirrorSet.java:80-83 | `remove(o)` deletes every entry whose value is `o`, equals `o`, or merely has `o`'s hash code | a map holding the values "Aa" and "BB", whose `String.hashCode` is 2112 for both: removing "Aa" deletes both | `Set.remove` deletes exactly the entries whose value equals `o` | high; not executed | MirrorSet.RemoveAsWrittenDropsCollisions | MirrorSet.RemovedValueIsGone |
| src/main/java/emi/lib/mtg/scryfall/api/enums/ApiEnum.java:72-73 | `read` returns null on a NULL token without calling `nextNull()`, so the null stays unread | a record `{"layout": null, "name": "X"}`: after the field's value is read the reader still stands on the null, where the object's reader expects the name "name" | a TypeAdapter consumes the whole value it reads: `nextNull()`, then return null | high; not executed | ApiEnum.NullFieldLeftUnread | ApiEnum.ReadWriteRoundTripIntended |
| src/main/java/emi/lib/mtg/scryfall/ScryfallCard.java:31-36 | `initColors` copies `internalColor()` and `internalColorIdentity()` with `EnumSet.copyOf(Collection)`; for a whole-record face these are the `Color.Combination` that `Util.mapColor` returns, which is not an EnumSet, and `copyOf` throws IllegalArgumentException on an empty non-EnumSet | a record face whose `colors` is null or `[]`, such as a colourless artifact or land: `color()`, `colorIndicator()` and `colorIdentity()` throw | colourless faces have empty colour sets: each set copied into a fresh EnumSet that cannot fail | high; not executed | LegacyCards.ColourlessRecordFaceThrows | LegacyCards.LegacyFace.InitColorsIntended |
