/**
 * The HTTP side of the relay: three webhooks that turn an already-decoded
 * JSON payload into a Markdown notice and broadcast it to every subscribed
 * group, behind an API-key check. JSON decoding is an abstract success or
 * failure; the response is a status code and a body.
 */
module Webhook {
  import opened GoTypes
  import Utf8
  import Decimal
  import opened Storage
  import Bot
  import opened WebhookTexts

  // ---------------------------------------------------------------------------
  // Payloads

  /** The wall-clock fields of a decoded `time.Time`, in the offset it was written with. */
  datatype Timestamp = Timestamp(year: nat, month: nat, day: nat, hour: nat, minute: nat, second: nat)

  /** The ranges a `time.Time` keeps its fields in, with a year of at most four digits. */
  predicate InRange(t: Timestamp) {
    && t.year <= 9999 && 1 <= t.month <= 12 && 1 <= t.day <= 31
    && t.hour < 24 && t.minute < 60 && t.second < 60
  }

  datatype UserRegisteredPayload = UserRegisteredPayload(email: GoString, createdAt: Timestamp, metadata: map<GoString, GoString>)

  datatype SupportMessagePayload = SupportMessagePayload(userEmail: GoString, message: GoString, createdAt: Timestamp)

  datatype ServerErrorPayload = ServerErrorPayload(service: GoString, error: GoString, stack: GoString, createdAt: Timestamp)

  /** The outcome of decoding a request body. */
  datatype Decoded<T> = Decoded(payload: T) | Malformed

  // ---------------------------------------------------------------------------
  // The "02.01.2006 15:04:05" layout

  /** Three zero-padded numbers joined by a separator: the "02.01.2006" and "15:04:05" halves of the layout. */
  function Fields(x: nat, y: nat, z: nat, zWidth: nat, sep: byte): GoString {
    Decimal.Pad(x, 2) + [sep] + Decimal.Pad(y, 2) + [sep] + Decimal.Pad(z, zWidth)
  }

  /** `t.Format("02.01.2006 15:04:05")`: day, month and year, then the time of day. */
  function FormatTime(t: Timestamp): GoString {
    Fields(t.day, t.month, t.year, 4, Dot) + [Space] + Fields(t.hour, t.minute, t.second, 2, Colon)
  }

  /** Numbers that fit their widths give fixed offsets, and each field reads back as its number. */
  lemma FieldsLayout(x: nat, y: nat, z: nat, zWidth: nat, sep: byte)
    requires x < 100 && y < 100 && 1 <= zWidth && z < Decimal.Pow10(zWidth)
    ensures var r := Fields(x, y, z, zWidth, sep);
      && |r| == 6 + zWidth && r[2] == sep && r[5] == sep
      && Decimal.Value(r[..2]) == x && Decimal.Value(r[3..5]) == y && Decimal.Value(r[6..]) == z
  {
    var px, py, pz := Decimal.Pad(x, 2), Decimal.Pad(y, 2), Decimal.Pad(z, zWidth);
    assert Decimal.Pow10(2) == 100;
    Decimal.PadExact(x, 2);
    Decimal.PadExact(y, 2);
    Decimal.PadExact(z, zWidth);
    var r := px + [sep] + py + [sep] + pz;
    assert r[..2] == px;
    assert r[3..5] == py;
    assert r[6..] == pz;
    Decimal.PadValue(x, 2);
    Decimal.PadValue(y, 2);
    Decimal.PadValue(z, zWidth);
  }

  /** A formatted time is 19 bytes: six fixed-width fields that read back as the timestamp's fields. */
  lemma FormatTimeLayout(t: Timestamp)
    requires InRange(t)
    ensures var r := FormatTime(t);
      && |r| == 19
      && r[2] == Dot && r[5] == Dot && r[10] == Space && r[13] == Colon && r[16] == Colon
      && Decimal.Value(r[0..2]) == t.day && Decimal.Value(r[3..5]) == t.month
      && Decimal.Value(r[6..10]) == t.year && Decimal.Value(r[11..13]) == t.hour
      && Decimal.Value(r[14..16]) == t.minute && Decimal.Value(r[17..19]) == t.second
  {
    var date, clock := Fields(t.day, t.month, t.year, 4, Dot), Fields(t.hour, t.minute, t.second, 2, Colon);
    assert Decimal.Pow10(2) == 100 && Decimal.Pow10(4) == 10000;
    FieldsLayout(t.day, t.month, t.year, 4, Dot);
    FieldsLayout(t.hour, t.minute, t.second, 2, Colon);
    var r := FormatTime(t);
    assert r[..10] == date && r[11..] == clock;
    assert r[0..2] == date[..2] && r[3..5] == date[3..5] && r[6..10] == date[6..];
    assert r[11..13] == clock[..2] && r[14..16] == clock[3..5] && r[17..19] == clock[6..];
  }

  // ---------------------------------------------------------------------------
  // truncate

  /** The longest error text and stack trace a server-error notice carries, in bytes. */
  const MaxErrorLen: nat := 500

  /** `truncate(s, maxLen)` as written: a byte cut at `maxLen`, then "...". */
  function Truncate(s: GoString, maxLen: nat): (r: GoString)
    ensures |s| <= maxLen ==> r == s
    ensures |s| > maxLen ==> |r| == maxLen + 3 && r[..maxLen] == s[..maxLen] && r[maxLen..] == Ellipsis
  {
    if |s| <= maxLen then s else s[..maxLen] + Ellipsis
  }

  /**
   * `truncate` with the cut moved back to the start of the character that
   * byte `maxLen` belongs to, so that no UTF-8 sequence is split.
   */
  function TruncateUtf8(s: GoString, maxLen: nat): (r: GoString)
    ensures |s| <= maxLen ==> r == s
    ensures |s| > maxLen ==>
      && maxLen + 3 >= |r| >= 3 && r[|r| - 3..] == Ellipsis
      && r[..|r| - 3] == s[..|r| - 3]
      && (|r| - 3 == 0 || !Utf8.IsContinuation(s[|r| - 3]))
  {
    if |s| <= maxLen then s else s[..Utf8.RuneStart(s, maxLen)] + Ellipsis
  }

  /** The "..." suffix is ASCII. */
  lemma EllipsisValid()
    ensures Utf8.Valid(Ellipsis)
  {
    Utf8.AsciiValid(Ellipsis);
  }

  /**
   * The corrected cut keeps well-formed text well-formed, and gives up at
   * most three bytes more than the byte cut does.
   */
  lemma TruncateUtf8Valid(s: GoString, maxLen: nat)
    requires Utf8.Valid(s)
    ensures Utf8.Valid(TruncateUtf8(s, maxLen))
    ensures |s| > maxLen ==> |TruncateUtf8(s, maxLen)| >= maxLen
  {
    if |s| > maxLen {
      var k := Utf8.RuneStart(s, maxLen);
      Utf8.PrefixValid(s, k);
      EllipsisValid();
      Utf8.ConcatValid(s[..k], Ellipsis);
      Utf8.RuneStartNear(s, maxLen);
    }
  }

  /** Where the byte cut falls on a character boundary, both cuts agree. */
  lemma TruncateAgreesOnBoundary(s: GoString, maxLen: nat)
    requires |s| <= maxLen || !Utf8.IsContinuation(s[maxLen])
    ensures TruncateUtf8(s, maxLen) == Truncate(s, maxLen)
  {
  }

  /** 499 ASCII letters and then a two-byte Cyrillic letter: byte 500 is the second byte of "я". */
  const SplitExample: GoString := seq(499, _ => 0x61) + [0xD1, 0x8F]

  /** The example is well-formed UTF-8 of 501 bytes, and its byte 500 is a continuation byte. */
  lemma SplitExampleValid()
    ensures |SplitExample| == 501 && Utf8.Valid(SplitExample) && Utf8.IsContinuation(SplitExample[500])
  {
    var letters: GoString := seq(499, _ => 0x61);
    Utf8.AsciiValid(letters);
    var ya: GoString := [0xD1, 0x8F];
    assert Utf8.CharLen(ya) == 2 && ya[2..] == [];
    Utf8.ConcatValid(letters, ya);
  }

  // ---------------------------------------------------------------------------
  // Notices

  /** A metadata key `UserRegistered` reports: the text before its value, and the text after it. */
  datatype MetadataField = MetadataField(key: GoString, heading: GoString, closing: GoString)

  const CountryField: MetadataField := MetadataField(CountryKey, CountryLabel, [])
  const CityField: MetadataField := MetadataField(CityKey, CityLabel, [])
  const BrowserField: MetadataField := MetadataField(BrowserKey, BrowserLabel, [])
  const OsField: MetadataField := MetadataField(OsKey, OsLabel, [])
  const ReferrerField: MetadataField := MetadataField(ReferrerKey, ReferrerLabel, [])
  /** The IP address is set in code, so its line closes the code span. */
  const IpField: MetadataField := MetadataField(IpKey, IpLabel, Backtick)

  /** The line of field `f` for value `v`: what its `fmt.Sprintf` produces. */
  function Line(f: MetadataField, v: GoString): GoString {
    f.heading + v + f.closing
  }

  /** The line of field `f` in map `m`, or nothing when its value is empty. */
  function FieldLine(f: MetadataField, m: map<GoString, GoString>): (r: GoString)
    ensures f.heading != [] ==> (r == [] <==> Lookup(m, f.key) == [])
  {
    if Lookup(m, f.key) == [] then [] else Line(f, Lookup(m, f.key))
  }

  /**
   * The metadata block of a registration notice: the line of each recognised
   * key, in the fixed order country, city, browser, os, referrer, ip.
   */
  function MetadataBlock(m: map<GoString, GoString>): GoString {
    FieldLine(CountryField, m) + FieldLine(CityField, m) + FieldLine(BrowserField, m)
    + FieldLine(OsField, m) + FieldLine(ReferrerField, m) + FieldLine(IpField, m)
  }

  /** Some recognised key has a value of its own. */
  predicate HasKnownKey(m: map<GoString, GoString>) {
    || Lookup(m, CountryKey) != [] || Lookup(m, CityKey) != [] || Lookup(m, BrowserKey) != []
    || Lookup(m, OsKey) != [] || Lookup(m, ReferrerKey) != [] || Lookup(m, IpKey) != []
  }

  /** The block is empty exactly when no recognised key has a non-empty value. */
  lemma MetadataBlockEmpty(m: map<GoString, GoString>)
    ensures MetadataBlock(m) == [] <==> !HasKnownKey(m)
  {
    var parts := [FieldLine(CountryField, m), FieldLine(CityField, m), FieldLine(BrowserField, m),
                  FieldLine(OsField, m), FieldLine(ReferrerField, m), FieldLine(IpField, m)];
    assert |MetadataBlock(m)| == |parts[0]| + |parts[1]| + |parts[2]| + |parts[3]| + |parts[4]| + |parts[5]|;
  }

  /** The fixed part of a registration notice: the address in code, then the time. */
  function UserRegisteredBase(p: UserRegisteredPayload): GoString {
    UserRegisteredHead + p.email + TimeLine + FormatTime(p.createdAt)
  }

  /** The registration notice: the fixed part, then the metadata block when the map is not empty. */
  function UserRegisteredText(p: UserRegisteredPayload): GoString {
    if |p.metadata| > 0 then UserRegisteredBase(p) + InfoHeader + MetadataBlock(p.metadata)
    else UserRegisteredBase(p)
  }

  /**
   * The notice extends its fixed part exactly when the metadata map is not
   * empty, and then the extension starts with the "Информация" heading.
   */
  lemma InfoHeaderIffMetadata(p: UserRegisteredPayload)
    ensures var base, text := UserRegisteredBase(p), UserRegisteredText(p);
      && text[..|base|] == base
      && (|text| > |base| <==> |p.metadata| > 0)
      && (|p.metadata| > 0 ==> text[|base|..|base| + |InfoHeader|] == InfoHeader)
  {
    var base, text := UserRegisteredBase(p), UserRegisteredText(p);
    if |p.metadata| > 0 {
      var rest := MetadataBlock(p.metadata);
      assert text == base + (InfoHeader + rest);
      assert text[|base|..][..|InfoHeader|] == InfoHeader;
    }
  }

  /** A non-empty map with none of the recognised keys set still gets the heading, and nothing after it. */
  lemma InfoHeaderWithoutKnownKeys(p: UserRegisteredPayload)
    requires |p.metadata| > 0 && !HasKnownKey(p.metadata)
    ensures UserRegisteredText(p) == UserRegisteredBase(p) + InfoHeader
  {
    MetadataBlockEmpty(p.metadata);
  }

  /** Concatenation regroups; stated once so that each step of AppendMetadata stays cheap. */
  lemma Regroup(a: GoString, b: GoString, c: GoString)
    ensures a + b + c == a + (b + c)
  {
  }

  /** The metadata steps of UserRegistered: `+=` one line per recognised key with a value, in order. */
  method AppendMetadata(text0: GoString, m: map<GoString, GoString>) returns (text: GoString)
    ensures text == text0 + MetadataBlock(m)
  {
    text := text0;
    ghost var block: GoString := [];
    var country := Lookup(m, CountryKey);
    if country != [] {
      text := text + Line(CountryField, country);
    }
    block := FieldLine(CountryField, m);
    assert text == text0 + block;
    var city := Lookup(m, CityKey);
    if city != [] {
      text := text + Line(CityField, city);
    }
    Regroup(text0, block, FieldLine(CityField, m));
    block := block + FieldLine(CityField, m);
    assert text == text0 + block;
    var browser := Lookup(m, BrowserKey);
    if browser != [] {
      text := text + Line(BrowserField, browser);
    }
    Regroup(text0, block, FieldLine(BrowserField, m));
    block := block + FieldLine(BrowserField, m);
    assert text == text0 + block;
    var os := Lookup(m, OsKey);
    if os != [] {
      text := text + Line(OsField, os);
    }
    Regroup(text0, block, FieldLine(OsField, m));
    block := block + FieldLine(OsField, m);
    assert text == text0 + block;
    var referrer := Lookup(m, ReferrerKey);
    if referrer != [] {
      text := text + Line(ReferrerField, referrer);
    }
    Regroup(text0, block, FieldLine(ReferrerField, m));
    block := block + FieldLine(ReferrerField, m);
    assert text == text0 + block;
    var ip := Lookup(m, IpKey);
    if ip != [] {
      text := text + Line(IpField, ip);
    }
    Regroup(text0, block, FieldLine(IpField, m));
    block := block + FieldLine(IpField, m);
    assert text == text0 + block;
  }

  /** UserRegistered's text, built as the handler builds it: the fixed part, then the metadata block. */
  method RenderUserRegistered(p: UserRegisteredPayload) returns (text: GoString)
    ensures text == UserRegisteredText(p)
  {
    text := UserRegisteredHead + p.email + TimeLine + FormatTime(p.createdAt);
    if |p.metadata| > 0 {
      text := text + InfoHeader;
      text := AppendMetadata(text, p.metadata);
    }
  }

  /** The support notice: the sender in code, the time, then the message. */
  function SupportMessageText(p: SupportMessagePayload): GoString {
    SupportHead + p.userEmail + TimeLine + FormatTime(p.createdAt) + SupportBody + p.message
  }

  /** Unlike an error text, a support message is relayed whole: the notice ends with all of it. */
  lemma SupportMessageWhole(p: SupportMessagePayload)
    requires InRange(p.createdAt)
    ensures var text := SupportMessageText(p);
      && |text| == |SupportHead| + |p.userEmail| + |TimeLine| + 19 + |SupportBody| + |p.message|
      && text[|text| - |p.message|..] == p.message
  {
    FormatTimeLayout(p.createdAt);
  }

  /** The fixed part of a server-error notice, up to the opening of the error block. */
  function ServerErrorHeading(p: ServerErrorPayload): GoString {
    ServerErrorHead + p.service + TimeLine + FormatTime(p.createdAt) + ErrorOpen
  }

  /** A server-error notice around a given error text and stack text; the stack block only when a stack was sent. */
  function ServerErrorBody(p: ServerErrorPayload, error: GoString, stack: GoString): GoString {
    ServerErrorHeading(p) + error + BlockClose
    + (if p.stack != [] then StackOpen + stack + BlockClose else [])
  }

  /** The server-error notice the handler sends: both texts cut by `truncate`, at a byte. */
  function ServerErrorText(p: ServerErrorPayload): GoString {
    ServerErrorBody(p, Truncate(p.error, MaxErrorLen), Truncate(p.stack, MaxErrorLen))
  }

  /** The server-error notice with the cut moved back to a character boundary, as evidently intended. */
  function CorrectedServerErrorText(p: ServerErrorPayload): GoString {
    ServerErrorBody(p, TruncateUtf8(p.error, MaxErrorLen), TruncateUtf8(p.stack, MaxErrorLen))
  }

  /**
   * The byte cut can leave a lead byte followed by '.': a well-formed error
   * text gives a notice that is not UTF-8, whatever the other fields hold.
   */
  lemma AsWrittenSplitsCharacter(p: ServerErrorPayload)
    requires p.error == SplitExample
    ensures Utf8.Valid(p.error)
    ensures !Utf8.Valid(ServerErrorText(p))
  {
    SplitExampleValid();
    var pre := ServerErrorHeading(p);
    var cut := Truncate(p.error, MaxErrorLen);
    var post := BlockClose + (if p.stack != [] then StackOpen + Truncate(p.stack, MaxErrorLen) + BlockClose else []);
    var text := ServerErrorText(p);
    assert text == pre + cut + post;
    assert cut[499] == 0xD1 && cut[500] == 0x2E;
    var i := |pre| + 499;
    assert text[i] == cut[499] && text[i + 1] == cut[500];
    if Utf8.Valid(text) {
      Utf8.LeadIsFollowed(text, i);
      assert false;
    }
  }

  /** The corrected notice carries the same example cut just before the split character. */
  lemma CorrectedKeepsCharacterWhole(p: ServerErrorPayload)
    requires p.error == SplitExample
    ensures TruncateUtf8(p.error, MaxErrorLen) == SplitExample[..499] + Ellipsis
    ensures Utf8.Valid(TruncateUtf8(p.error, MaxErrorLen))
  {
    SplitExampleValid();
    assert SplitExample[499] == 0xD1;
    assert Utf8.RuneStart(SplitExample, 500) == 499;
    TruncateUtf8Valid(p.error, MaxErrorLen);
  }

  /**
   * After its fixed part, the notice carries the error text whole when it has
   * at most 500 bytes, and otherwise its first 500 bytes and then "...".
   */
  lemma ErrorBlockAsWritten(p: ServerErrorPayload)
    ensures var pre, text := ServerErrorHeading(p), ServerErrorText(p);
      && text[..|pre|] == pre
      && (|p.error| <= MaxErrorLen ==> text[|pre|..|pre| + |p.error|] == p.error)
      && (|p.error| > MaxErrorLen ==> text[|pre|..|pre| + MaxErrorLen + 3] == p.error[..MaxErrorLen] + Ellipsis)
  {
    var pre, cut := ServerErrorHeading(p), Truncate(p.error, MaxErrorLen);
    var post := BlockClose + (if p.stack != [] then StackOpen + Truncate(p.stack, MaxErrorLen) + BlockClose else []);
    var text := ServerErrorText(p);
    assert text == pre + cut + post;
    assert text[..|pre|] == pre;
    assert text[|pre|..|pre| + |cut|] == cut;
  }

  /** With a stack the notice ends with a second code block; without one it ends with the error block. */
  lemma StackBlockIffStack(p: ServerErrorPayload)
    ensures var head := ServerErrorBody(p.(stack := []), Truncate(p.error, MaxErrorLen), []);
      && (p.stack == [] ==> ServerErrorText(p) == head)
      && (p.stack != [] ==> ServerErrorText(p) == head + StackOpen + Truncate(p.stack, MaxErrorLen) + BlockClose)
  {
  }

  /** Where neither cut falls inside a character, the corrected notice is the one the handler sends. */
  lemma CorrectedAgreesOnBoundaries(p: ServerErrorPayload)
    requires |p.error| <= MaxErrorLen || !Utf8.IsContinuation(p.error[MaxErrorLen])
    requires |p.stack| <= MaxErrorLen || !Utf8.IsContinuation(p.stack[MaxErrorLen])
    ensures CorrectedServerErrorText(p) == ServerErrorText(p)
  {
    TruncateAgreesOnBoundary(p.error, MaxErrorLen);
    TruncateAgreesOnBoundary(p.stack, MaxErrorLen);
  }

  // ---------------------------------------------------------------------------
  // Responses and the handler

  /** An HTTP response: its status code and body. */
  datatype Response = Response(status: int, body: GoString)

  const Unauthorized: Response := Response(401, UnauthorizedBody)
  const BadRequest: Response := Response(400, BadRequestBody)
  const InternalError: Response := Response(500, InternalErrorBody)
  const Success: Response := Response(200, OkBody)

  /** What a webhook answers: 400 when the body did not decode, 500 when the broadcast failed, else 200 "OK". */
  function ResponseFor(notice: Option<GoString>, listing: Result<seq<Group>, StoreError>): (r: Response)
    ensures r.status == 400 <==> notice.None?
    ensures r.status == 500 <==> notice.Some? && listing.Err?
    ensures r.status == 200 <==> notice.Some? && listing.Ok?
    ensures r.status == 200 ==> r.body == OkBody
  {
    if notice.None? then BadRequest
    else if listing.Err? then InternalError
    else Success
  }

  /** The messages a webhook hands to Send: none without a notice or a listing, else one per group. */
  function Broadcast(notice: Option<GoString>, rows: seq<Group>, fault: ReadFault): (r: seq<Bot.Outgoing>)
    ensures notice.None? ==> r == []
    ensures Listing(rows, fault).Err? ==> r == []
    ensures notice.Some? && Listing(rows, fault).Ok? ==>
      |r| == |rows| && forall i :: 0 <= i < |r| ==> r[i] == Bot.Outgoing(rows[i].chatId, notice.value, Bot.Markdown)
  {
    if notice.None? || Listing(rows, fault).Err? then [] else Bot.Fanout(rows, notice.value)
  }

  /** The API-key check: a key must be sent, and it must equal the configured one. */
  predicate Authorized(key: GoString, configured: GoString) {
    key != [] && key == configured
  }

  /** The three routes behind the API-key check, each with its decoded (or undecodable) body. */
  datatype Route =
    | UserRegisteredRoute(user: Decoded<UserRegisteredPayload>)
    | SupportMessageRoute(support: Decoded<SupportMessagePayload>)
    | ServerErrorRoute(failure: Decoded<ServerErrorPayload>)

  /** The notice a route broadcasts, or none when its body did not decode. */
  function NoticeFor(route: Route): (n: Option<GoString>)
    ensures n.None? <==>
      || (route.UserRegisteredRoute? && route.user.Malformed?)
      || (route.SupportMessageRoute? && route.support.Malformed?)
      || (route.ServerErrorRoute? && route.failure.Malformed?)
  {
    match route
    case UserRegisteredRoute(d) => if d.Malformed? then None else Some(UserRegisteredText(d.payload))
    case SupportMessageRoute(d) => if d.Malformed? then None else Some(SupportMessageText(d.payload))
    case ServerErrorRoute(d) => if d.Malformed? then None else Some(ServerErrorText(d.payload))
  }

  /** An empty configured key locks every caller out. */
  lemma EmptyKeyRejectsAll(key: GoString)
    ensures !Authorized(key, [])
  {
  }

  /** The webhook handler: the configured API key and the bot that broadcasts. */
  class Handler {
    const apiKey: GoString
    const bot: Bot.Bot

    constructor (apiKey: GoString, bot: Bot.Bot)
      ensures this.apiKey == apiKey && this.bot == bot
    {
      this.apiKey := apiKey;
      this.bot := bot;
    }

    /** UserRegistered: decode, build the notice, broadcast, answer. */
    method UserRegistered(req: Decoded<UserRegisteredPayload>, fault: ReadFault) returns (resp: Response)
      modifies bot.api
      ensures resp == ResponseFor(NoticeFor(UserRegisteredRoute(req)), Listing(bot.storage.rows, fault))
      ensures bot.api.sent == old(bot.api.sent) + Broadcast(NoticeFor(UserRegisteredRoute(req)), bot.storage.rows, fault)
    {
      if req.Malformed? {
        return BadRequest;
      }
      var text := RenderUserRegistered(req.payload);
      var r := bot.SendToAllGroups(text, fault);
      if r.Fail? {
        return InternalError;
      }
      return Success;
    }

    /** SupportMessage: decode, format the notice, broadcast, answer. */
    method SupportMessage(req: Decoded<SupportMessagePayload>, fault: ReadFault) returns (resp: Response)
      modifies bot.api
      ensures resp == ResponseFor(NoticeFor(SupportMessageRoute(req)), Listing(bot.storage.rows, fault))
      ensures bot.api.sent == old(bot.api.sent) + Broadcast(NoticeFor(SupportMessageRoute(req)), bot.storage.rows, fault)
    {
      if req.Malformed? {
        return BadRequest;
      }
      var r := bot.SendToAllGroups(SupportMessageText(req.payload), fault);
      if r.Fail? {
        return InternalError;
      }
      return Success;
    }

    /** ServerError: decode, format the notice with both texts cut, broadcast, answer. */
    method ServerError(req: Decoded<ServerErrorPayload>, fault: ReadFault) returns (resp: Response)
      modifies bot.api
      ensures resp == ResponseFor(NoticeFor(ServerErrorRoute(req)), Listing(bot.storage.rows, fault))
      ensures bot.api.sent == old(bot.api.sent) + Broadcast(NoticeFor(ServerErrorRoute(req)), bot.storage.rows, fault)
    {
      if req.Malformed? {
        return BadRequest;
      }
      var r := bot.SendToAllGroups(ServerErrorText(req.payload), fault);
      if r.Fail? {
        return InternalError;
      }
      return Success;
    }

    /** APIKeyAuth around the routes: 401 and no broadcast without the right key; otherwise the route's handler. */
    method Serve(key: GoString, route: Route, fault: ReadFault) returns (resp: Response)
      modifies bot.api
      ensures !Authorized(key, apiKey) ==> resp == Unauthorized && bot.api.sent == old(bot.api.sent)
      ensures Authorized(key, apiKey) ==>
        && resp == ResponseFor(NoticeFor(route), Listing(bot.storage.rows, fault))
        && bot.api.sent == old(bot.api.sent) + Broadcast(NoticeFor(route), bot.storage.rows, fault)
      ensures resp.status == 401 <==> !Authorized(key, apiKey)
    {
      if key == [] || key != apiKey {
        return Unauthorized;
      }
      match route
      case UserRegisteredRoute(d) => resp := UserRegistered(d, fault);
      case SupportMessageRoute(d) => resp := SupportMessage(d, fault);
      case ServerErrorRoute(d) => resp := ServerError(d, fault);
    }
  }
}
