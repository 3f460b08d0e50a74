/**
 * The fixed pieces of the webhook notices and HTTP replies, as the UTF-8 bytes
 * of the Go literals they come from. Each notice template is split at its `%s`
 * holes; a piece's comment says what it reads as.
 */
module WebhookTexts {
  import opened GoTypes

  /** The head of a registration notice, up to the e-mail address (set in code). */
  const UserRegisteredHead: GoString := [
    0xF0, 0x9F, 0x91, 0xA4, 0x20, 0x2A, 0xD0, 0x9D, 0xD0, 0xBE, 0xD0, 0xB2, 0xD1, 0x8B, 0xD0, 0xB9,
    0x20, 0xD0, 0xBF, 0xD0, 0xBE, 0xD0, 0xBB, 0xD1, 0x8C, 0xD0, 0xB7, 0xD0, 0xBE, 0xD0, 0xB2, 0xD0,
    0xB0, 0xD1, 0x82, 0xD0, 0xB5, 0xD0, 0xBB, 0xD1, 0x8C, 0x2A, 0x0A, 0x0A, 0xF0, 0x9F, 0x93, 0xA7,
    0x20, 0x45, 0x6D, 0x61, 0x69, 0x6C, 0x3A, 0x20, 0x60]

  /** Closes the code span before it, then labels the event time. */
  const TimeLine: GoString := [
    0x60, 0x0A, 0xF0, 0x9F, 0x95, 0x90, 0x20, 0xD0, 0x92, 0xD1, 0x80, 0xD0, 0xB5, 0xD0, 0xBC, 0xD1,
    0x8F, 0x3A, 0x20]

  /** The heading of the metadata block. */
  const InfoHeader: GoString := [
    0x0A, 0x0A, 0xF0, 0x9F, 0x93, 0x8D, 0x20, 0x2A, 0xD0, 0x98, 0xD0, 0xBD, 0xD1, 0x84, 0xD0, 0xBE,
    0xD1, 0x80, 0xD0, 0xBC, 0xD0, 0xB0, 0xD1, 0x86, 0xD0, 0xB8, 0xD1, 0x8F, 0x3A, 0x2A]

  /** The head of a support notice, up to the sender's address (set in code). */
  const SupportHead: GoString := [
    0xF0, 0x9F, 0x92, 0xAC, 0x20, 0x2A, 0xD0, 0xA1, 0xD0, 0xBE, 0xD0, 0xBE, 0xD0, 0xB1, 0xD1, 0x89,
    0xD0, 0xB5, 0xD0, 0xBD, 0xD0, 0xB8, 0xD0, 0xB5, 0x20, 0xD0, 0xB2, 0x20, 0xD0, 0xBF, 0xD0, 0xBE,
    0xD0, 0xB4, 0xD0, 0xB4, 0xD0, 0xB5, 0xD1, 0x80, 0xD0, 0xB6, 0xD0, 0xBA, 0xD1, 0x83, 0x2A, 0x0A,
    0x0A, 0xF0, 0x9F, 0x91, 0xA4, 0x20, 0xD0, 0x9E, 0xD1, 0x82, 0x3A, 0x20, 0x60]

  /** Labels the support message itself. */
  const SupportBody: GoString := [
    0x0A, 0x0A, 0xF0, 0x9F, 0x93, 0x9D, 0x20, 0xD0, 0xA1, 0xD0, 0xBE, 0xD0, 0xBE, 0xD0, 0xB1, 0xD1,
    0x89, 0xD0, 0xB5, 0xD0, 0xBD, 0xD0, 0xB8, 0xD0, 0xB5, 0x3A, 0x0A]

  /** The head of a server-error notice, up to the service name (set in code). */
  const ServerErrorHead: GoString := [
    0xF0, 0x9F, 0x9A, 0xA8, 0x20, 0x2A, 0xD0, 0x9E, 0xD1, 0x88, 0xD0, 0xB8, 0xD0, 0xB1, 0xD0, 0xBA,
    0xD0, 0xB0, 0x20, 0xD0, 0xBD, 0xD0, 0xB0, 0x20, 0xD1, 0x81, 0xD0, 0xB5, 0xD1, 0x80, 0xD0, 0xB2,
    0xD0, 0xB5, 0xD1, 0x80, 0xD0, 0xB5, 0x2A, 0x0A, 0x0A, 0xF0, 0x9F, 0x94, 0xA7, 0x20, 0xD0, 0xA1,
    0xD0, 0xB5, 0xD1, 0x80, 0xD0, 0xB2, 0xD0, 0xB8, 0xD1, 0x81, 0x3A, 0x20, 0x60]

  /** Labels the error text and opens its code block. */
  const ErrorOpen: GoString := [
    0x0A, 0x0A, 0xE2, 0x9D, 0x8C, 0x20, 0xD0, 0x9E, 0xD1, 0x88, 0xD0, 0xB8, 0xD0, 0xB1, 0xD0, 0xBA,
    0xD0, 0xB0, 0x3A, 0x0A, 0x60, 0x60, 0x60, 0x0A]

  /** Labels the stack trace and opens its code block. */
  const StackOpen: GoString := [
    0x0A, 0x0A, 0xF0, 0x9F, 0x93, 0x9A, 0x20, 0x53, 0x74, 0x61, 0x63, 0x6B, 0x20, 0x74, 0x72, 0x61,
    0x63, 0x65, 0x3A, 0x0A, 0x60, 0x60, 0x60, 0x0A]

  /** Closes a code block. */
  const BlockClose: GoString := [0x0A, 0x60, 0x60, 0x60]

  /** The line label of metadata key "country". */
  const CountryLabel: GoString := [
    0x0A, 0xE2, 0x80, 0xA2, 0x20, 0xD0, 0xA1, 0xD1, 0x82, 0xD1, 0x80, 0xD0, 0xB0, 0xD0, 0xBD, 0xD0,
    0xB0, 0x3A, 0x20]

  /** The line label of metadata key "city". */
  const CityLabel: GoString := [
    0x0A, 0xE2, 0x80, 0xA2, 0x20, 0xD0, 0x93, 0xD0, 0xBE, 0xD1, 0x80, 0xD0, 0xBE, 0xD0, 0xB4, 0x3A,
    0x20]

  /** The line label of metadata key "browser". */
  const BrowserLabel: GoString := [
    0x0A, 0xE2, 0x80, 0xA2, 0x20, 0xD0, 0x91, 0xD1, 0x80, 0xD0, 0xB0, 0xD1, 0x83, 0xD0, 0xB7, 0xD0,
    0xB5, 0xD1, 0x80, 0x3A, 0x20]

  /** The line label of metadata key "os". */
  const OsLabel: GoString := [0x0A, 0xE2, 0x80, 0xA2, 0x20, 0xD0, 0x9E, 0xD0, 0xA1, 0x3A, 0x20]

  /** The line label of metadata key "referrer". */
  const ReferrerLabel: GoString := [
    0x0A, 0xE2, 0x80, 0xA2, 0x20, 0xD0, 0x98, 0xD1, 0x81, 0xD1, 0x82, 0xD0, 0xBE, 0xD1, 0x87, 0xD0,
    0xBD, 0xD0, 0xB8, 0xD0, 0xBA, 0x3A, 0x20]

  /** The line label of metadata key "ip". */
  const IpLabel: GoString := [0x0A, 0xE2, 0x80, 0xA2, 0x20, 0x49, 0x50, 0x3A, 0x20, 0x60]

  const CountryKey: GoString := [0x63, 0x6F, 0x75, 0x6E, 0x74, 0x72, 0x79]  // country
  const CityKey: GoString := [0x63, 0x69, 0x74, 0x79]  // city
  const BrowserKey: GoString := [0x62, 0x72, 0x6F, 0x77, 0x73, 0x65, 0x72]  // browser
  const OsKey: GoString := [0x6F, 0x73]  // os
  const ReferrerKey: GoString := [0x72, 0x65, 0x66, 0x65, 0x72, 0x72, 0x65, 0x72]  // referrer
  const IpKey: GoString := [0x69, 0x70]  // ip

  /** The closing backtick of the IP address's code span. */
  const Backtick: GoString := [0x60]

  /** What `truncate` appends after a cut. */
  const Ellipsis: GoString := [0x2E, 0x2E, 0x2E]  // ...

  // The separators of the "02.01.2006 15:04:05" layout.
  const Dot: byte := 0x2E
  const Space: byte := 0x20
  const Colon: byte := 0x3A

  // The plain-text bodies http.Error writes (the message and a newline), and the success body.
  const UnauthorizedBody: GoString := [0x55, 0x6E, 0x61, 0x75, 0x74, 0x68, 0x6F, 0x72, 0x69, 0x7A, 0x65, 0x64, 0x0A]  // Unauthorized
  const BadRequestBody: GoString := [0x42, 0x61, 0x64, 0x20, 0x52, 0x65, 0x71, 0x75, 0x65, 0x73, 0x74, 0x0A]  // Bad Request
  const InternalErrorBody: GoString := [
    0x49, 0x6E, 0x74, 0x65, 0x72, 0x6E, 0x61, 0x6C, 0x20, 0x53, 0x65, 0x72, 0x76, 0x65, 0x72, 0x20,
    0x45, 0x72, 0x72, 0x6F, 0x72, 0x0A]  // Internal Server Error
  const OkBody: GoString := [0x4F, 0x4B]  // OK
}
