/**
 * The fixed texts of the bot, as the UTF-8 bytes its Go string literals hold.
 * The Russian replies are written out byte by byte; each constant's comment
 * says what the reply means.
 */
module BotTexts {
  import opened GoTypes

  /** The /start and /help reply: what the bot relays, and the command list (a Markdown text). */
  const StartText: GoString := [
    0xF0, 0x9F, 0xA4, 0x96, 0x20, 0x2A, 0x4C, 0x75, 0x76, 0x65, 0x6E, 0x74, 0x6F, 0x20, 0x4E, 0x6F,
    0x74, 0x69, 0x66, 0x69, 0x63, 0x61, 0x74, 0x69, 0x6F, 0x6E, 0x20, 0x42, 0x6F, 0x74, 0x2A, 0x0A,
    0x0A, 0xD0, 0xAF, 0x20, 0xD0, 0xBE, 0xD1, 0x82, 0xD0, 0xBF, 0xD1, 0x80, 0xD0, 0xB0, 0xD0, 0xB2,
    0xD0, 0xBB, 0xD1, 0x8F, 0xD1, 0x8E, 0x20, 0xD1, 0x83, 0xD0, 0xB2, 0xD0, 0xB5, 0xD0, 0xB4, 0xD0,
    0xBE, 0xD0, 0xBC, 0xD0, 0xBB, 0xD0, 0xB5, 0xD0, 0xBD, 0xD0, 0xB8, 0xD1, 0x8F, 0x20, 0xD0, 0xBE,
    0x20, 0xD0, 0xB2, 0xD0, 0xB0, 0xD0, 0xB6, 0xD0, 0xBD, 0xD1, 0x8B, 0xD1, 0x85, 0x20, 0xD1, 0x81,
    0xD0, 0xBE, 0xD0, 0xB1, 0xD1, 0x8B, 0xD1, 0x82, 0xD0, 0xB8, 0xD1, 0x8F, 0xD1, 0x85, 0x3A, 0x0A,
    0xE2, 0x80, 0xA2, 0x20, 0xD0, 0x9D, 0xD0, 0xBE, 0xD0, 0xB2, 0xD1, 0x8B, 0xD0, 0xB5, 0x20, 0xD1,
    0x80, 0xD0, 0xB5, 0xD0, 0xB3, 0xD0, 0xB8, 0xD1, 0x81, 0xD1, 0x82, 0xD1, 0x80, 0xD0, 0xB0, 0xD1,
    0x86, 0xD0, 0xB8, 0xD0, 0xB8, 0x20, 0xD0, 0xBF, 0xD0, 0xBE, 0xD0, 0xBB, 0xD1, 0x8C, 0xD0, 0xB7,
    0xD0, 0xBE, 0xD0, 0xB2, 0xD0, 0xB0, 0xD1, 0x82, 0xD0, 0xB5, 0xD0, 0xBB, 0xD0, 0xB5, 0xD0, 0xB9,
    0x0A, 0xE2, 0x80, 0xA2, 0x20, 0xD0, 0xA1, 0xD0, 0xBE, 0xD0, 0xBE, 0xD0, 0xB1, 0xD1, 0x89, 0xD0,
    0xB5, 0xD0, 0xBD, 0xD0, 0xB8, 0xD1, 0x8F, 0x20, 0xD0, 0xB2, 0x20, 0xD0, 0xBF, 0xD0, 0xBE, 0xD0,
    0xB4, 0xD0, 0xB4, 0xD0, 0xB5, 0xD1, 0x80, 0xD0, 0xB6, 0xD0, 0xBA, 0xD1, 0x83, 0x0A, 0xE2, 0x80,
    0xA2, 0x20, 0xD0, 0x9E, 0xD1, 0x88, 0xD0, 0xB8, 0xD0, 0xB1, 0xD0, 0xBA, 0xD0, 0xB8, 0x20, 0xD1,
    0x81, 0xD0, 0xB5, 0xD1, 0x80, 0xD0, 0xB2, 0xD0, 0xB5, 0xD1, 0x80, 0xD0, 0xB0, 0x0A, 0x0A, 0x2A,
    0xD0, 0x9A, 0xD0, 0xBE, 0xD0, 0xBC, 0xD0, 0xB0, 0xD0, 0xBD, 0xD0, 0xB4, 0xD1, 0x8B, 0x3A, 0x2A,
    0x0A, 0x2F, 0x61, 0x64, 0x64, 0x67, 0x72, 0x6F, 0x75, 0x70, 0x20, 0xE2, 0x80, 0x94, 0x20, 0xD0,
    0xB4, 0xD0, 0xBE, 0xD0, 0xB1, 0xD0, 0xB0, 0xD0, 0xB2, 0xD0, 0xB8, 0xD1, 0x82, 0xD1, 0x8C, 0x20,
    0xD1, 0x8D, 0xD1, 0x82, 0xD1, 0x83, 0x20, 0xD0, 0xB3, 0xD1, 0x80, 0xD1, 0x83, 0xD0, 0xBF, 0xD0,
    0xBF, 0xD1, 0x83, 0x20, 0xD0, 0xB2, 0x20, 0xD1, 0x80, 0xD0, 0xB0, 0xD1, 0x81, 0xD1, 0x81, 0xD1,
    0x8B, 0xD0, 0xBB, 0xD0, 0xBA, 0xD1, 0x83, 0x0A, 0x2F, 0x72, 0x65, 0x6D, 0x6F, 0x76, 0x65, 0x67,
    0x72, 0x6F, 0x75, 0x70, 0x20, 0xE2, 0x80, 0x94, 0x20, 0xD1, 0x83, 0xD0, 0xB1, 0xD1, 0x80, 0xD0,
    0xB0, 0xD1, 0x82, 0xD1, 0x8C, 0x20, 0xD0, 0xB3, 0xD1, 0x80, 0xD1, 0x83, 0xD0, 0xBF, 0xD0, 0xBF,
    0xD1, 0x83, 0x20, 0xD0, 0xB8, 0xD0, 0xB7, 0x20, 0xD1, 0x80, 0xD0, 0xB0, 0xD1, 0x81, 0xD1, 0x81,
    0xD1, 0x8B, 0xD0, 0xBB, 0xD0, 0xBA, 0xD0, 0xB8, 0x0A, 0x2F, 0x73, 0x74, 0x61, 0x74, 0x75, 0x73,
    0x20, 0xE2, 0x80, 0x94, 0x20, 0xD0, 0xBF, 0xD0, 0xBE, 0xD0, 0xBA, 0xD0, 0xB0, 0xD0, 0xB7, 0xD0,
    0xB0, 0xD1, 0x82, 0xD1, 0x8C, 0x20, 0xD1, 0x81, 0xD1, 0x82, 0xD0, 0xB0, 0xD1, 0x82, 0xD1, 0x83,
    0xD1, 0x81, 0x0A, 0x2F, 0x68, 0x65, 0x6C, 0x70, 0x20, 0xE2, 0x80, 0x94, 0x20, 0xD0, 0xBF, 0xD0,
    0xBE, 0xD0, 0xBC, 0xD0, 0xBE, 0xD1, 0x89, 0xD1, 0x8C]

  /** The refusal of /addgroup and /removegroup outside a group chat. */
  const GroupsOnlyText: GoString := [
    0xE2, 0x9A, 0xA0, 0xEF, 0xB8, 0x8F, 0x20, 0xD0, 0xAD, 0xD1, 0x82, 0xD0, 0xB0, 0x20, 0xD0, 0xBA,
    0xD0, 0xBE, 0xD0, 0xBC, 0xD0, 0xB0, 0xD0, 0xBD, 0xD0, 0xB4, 0xD0, 0xB0, 0x20, 0xD1, 0x80, 0xD0,
    0xB0, 0xD0, 0xB1, 0xD0, 0xBE, 0xD1, 0x82, 0xD0, 0xB0, 0xD0, 0xB5, 0xD1, 0x82, 0x20, 0xD1, 0x82,
    0xD0, 0xBE, 0xD0, 0xBB, 0xD1, 0x8C, 0xD0, 0xBA, 0xD0, 0xBE, 0x20, 0xD0, 0xB2, 0x20, 0xD0, 0xB3,
    0xD1, 0x80, 0xD1, 0x83, 0xD0, 0xBF, 0xD0, 0xBF, 0xD0, 0xB0, 0xD1, 0x85]

  /** The reply when the administrator lookup fails. */
  const AdminCheckFailedText: GoString := [
    0xE2, 0x9D, 0x8C, 0x20, 0xD0, 0x9E, 0xD1, 0x88, 0xD0, 0xB8, 0xD0, 0xB1, 0xD0, 0xBA, 0xD0, 0xB0,
    0x20, 0xD0, 0xBF, 0xD1, 0x80, 0xD0, 0xBE, 0xD0, 0xB2, 0xD0, 0xB5, 0xD1, 0x80, 0xD0, 0xBA, 0xD0,
    0xB8, 0x20, 0xD0, 0xBF, 0xD1, 0x80, 0xD0, 0xB0, 0xD0, 0xB2]

  /** The refusal of /addgroup to a non-administrator. */
  const AddNotAdminText: GoString := [
    0xE2, 0x9A, 0xA0, 0xEF, 0xB8, 0x8F, 0x20, 0xD0, 0xA2, 0xD0, 0xBE, 0xD0, 0xBB, 0xD1, 0x8C, 0xD0,
    0xBA, 0xD0, 0xBE, 0x20, 0xD0, 0xB0, 0xD0, 0xB4, 0xD0, 0xBC, 0xD0, 0xB8, 0xD0, 0xBD, 0xD0, 0xB8,
    0xD1, 0x81, 0xD1, 0x82, 0xD1, 0x80, 0xD0, 0xB0, 0xD1, 0x82, 0xD0, 0xBE, 0xD1, 0x80, 0xD1, 0x8B,
    0x20, 0xD0, 0xBC, 0xD0, 0xBE, 0xD0, 0xB3, 0xD1, 0x83, 0xD1, 0x82, 0x20, 0xD0, 0xB4, 0xD0, 0xBE,
    0xD0, 0xB1, 0xD0, 0xB0, 0xD0, 0xB2, 0xD0, 0xBB, 0xD1, 0x8F, 0xD1, 0x82, 0xD1, 0x8C, 0x20, 0xD0,
    0xB3, 0xD1, 0x80, 0xD1, 0x83, 0xD0, 0xBF, 0xD0, 0xBF, 0xD1, 0x83]

  /** The reply when the store rejects the new subscription. */
  const AddFailedText: GoString := [
    0xE2, 0x9D, 0x8C, 0x20, 0xD0, 0x9E, 0xD1, 0x88, 0xD0, 0xB8, 0xD0, 0xB1, 0xD0, 0xBA, 0xD0, 0xB0,
    0x20, 0xD0, 0xB4, 0xD0, 0xBE, 0xD0, 0xB1, 0xD0, 0xB0, 0xD0, 0xB2, 0xD0, 0xBB, 0xD0, 0xB5, 0xD0,
    0xBD, 0xD0, 0xB8, 0xD1, 0x8F, 0x20, 0xD0, 0xB3, 0xD1, 0x80, 0xD1, 0x83, 0xD0, 0xBF, 0xD0, 0xBF,
    0xD1, 0x8B]

  /** The confirmation of /addgroup. */
  const AddedText: GoString := [
    0xE2, 0x9C, 0x85, 0x20, 0xD0, 0x93, 0xD1, 0x80, 0xD1, 0x83, 0xD0, 0xBF, 0xD0, 0xBF, 0xD0, 0xB0,
    0x20, 0xD0, 0xB4, 0xD0, 0xBE, 0xD0, 0xB1, 0xD0, 0xB0, 0xD0, 0xB2, 0xD0, 0xBB, 0xD0, 0xB5, 0xD0,
    0xBD, 0xD0, 0xB0, 0x20, 0xD0, 0xB2, 0x20, 0xD1, 0x80, 0xD0, 0xB0, 0xD1, 0x81, 0xD1, 0x81, 0xD1,
    0x8B, 0xD0, 0xBB, 0xD0, 0xBA, 0xD1, 0x83, 0x20, 0xD1, 0x83, 0xD0, 0xB2, 0xD0, 0xB5, 0xD0, 0xB4,
    0xD0, 0xBE, 0xD0, 0xBC, 0xD0, 0xBB, 0xD0, 0xB5, 0xD0, 0xBD, 0xD0, 0xB8, 0xD0, 0xB9]

  /** The refusal of /removegroup to a non-administrator. */
  const RemoveNotAdminText: GoString := [
    0xE2, 0x9A, 0xA0, 0xEF, 0xB8, 0x8F, 0x20, 0xD0, 0xA2, 0xD0, 0xBE, 0xD0, 0xBB, 0xD1, 0x8C, 0xD0,
    0xBA, 0xD0, 0xBE, 0x20, 0xD0, 0xB0, 0xD0, 0xB4, 0xD0, 0xBC, 0xD0, 0xB8, 0xD0, 0xBD, 0xD0, 0xB8,
    0xD1, 0x81, 0xD1, 0x82, 0xD1, 0x80, 0xD0, 0xB0, 0xD1, 0x82, 0xD0, 0xBE, 0xD1, 0x80, 0xD1, 0x8B,
    0x20, 0xD0, 0xBC, 0xD0, 0xBE, 0xD0, 0xB3, 0xD1, 0x83, 0xD1, 0x82, 0x20, 0xD1, 0x83, 0xD0, 0xB4,
    0xD0, 0xB0, 0xD0, 0xBB, 0xD1, 0x8F, 0xD1, 0x82, 0xD1, 0x8C, 0x20, 0xD0, 0xB3, 0xD1, 0x80, 0xD1,
    0x83, 0xD0, 0xBF, 0xD0, 0xBF, 0xD1, 0x83]

  /** The reply when the store fails to delete the subscription. */
  const RemoveFailedText: GoString := [
    0xE2, 0x9D, 0x8C, 0x20, 0xD0, 0x9E, 0xD1, 0x88, 0xD0, 0xB8, 0xD0, 0xB1, 0xD0, 0xBA, 0xD0, 0xB0,
    0x20, 0xD1, 0x83, 0xD0, 0xB4, 0xD0, 0xB0, 0xD0, 0xBB, 0xD0, 0xB5, 0xD0, 0xBD, 0xD0, 0xB8, 0xD1,
    0x8F, 0x20, 0xD0, 0xB3, 0xD1, 0x80, 0xD1, 0x83, 0xD0, 0xBF, 0xD0, 0xBF, 0xD1, 0x8B]

  /** The confirmation of /removegroup. */
  const RemovedText: GoString := [
    0xE2, 0x9C, 0x85, 0x20, 0xD0, 0x93, 0xD1, 0x80, 0xD1, 0x83, 0xD0, 0xBF, 0xD0, 0xBF, 0xD0, 0xB0,
    0x20, 0xD1, 0x83, 0xD0, 0xB4, 0xD0, 0xB0, 0xD0, 0xBB, 0xD0, 0xB5, 0xD0, 0xBD, 0xD0, 0xB0, 0x20,
    0xD0, 0xB8, 0xD0, 0xB7, 0x20, 0xD1, 0x80, 0xD0, 0xB0, 0xD1, 0x81, 0xD1, 0x81, 0xD1, 0x8B, 0xD0,
    0xBB, 0xD0, 0xBA, 0xD0, 0xB8]

  /** The reply of /status when the listing fails. */
  const StatusFailedText: GoString := [
    0xE2, 0x9D, 0x8C, 0x20, 0xD0, 0x9E, 0xD1, 0x88, 0xD0, 0xB8, 0xD0, 0xB1, 0xD0, 0xBA, 0xD0, 0xB0,
    0x20, 0xD0, 0xBF, 0xD0, 0xBE, 0xD0, 0xBB, 0xD1, 0x83, 0xD1, 0x87, 0xD0, 0xB5, 0xD0, 0xBD, 0xD0,
    0xB8, 0xD1, 0x8F, 0x20, 0xD1, 0x81, 0xD1, 0x82, 0xD0, 0xB0, 0xD1, 0x82, 0xD1, 0x83, 0xD1, 0x81,
    0xD0, 0xB0]

  /** The /status report when no group is subscribed. */
  const NoGroupsText: GoString := [
    0xF0, 0x9F, 0x93, 0x8A, 0x20, 0x2A, 0xD0, 0xA1, 0xD1, 0x82, 0xD0, 0xB0, 0xD1, 0x82, 0xD1, 0x83,
    0xD1, 0x81, 0x2A, 0x0A, 0x0A, 0xD0, 0x9D, 0xD0, 0xB5, 0xD1, 0x82, 0x20, 0xD0, 0xBF, 0xD0, 0xBE,
    0xD0, 0xB4, 0xD0, 0xBF, 0xD0, 0xB8, 0xD1, 0x81, 0xD0, 0xB0, 0xD0, 0xBD, 0xD0, 0xBD, 0xD1, 0x8B,
    0xD1, 0x85, 0x20, 0xD0, 0xB3, 0xD1, 0x80, 0xD1, 0x83, 0xD0, 0xBF, 0xD0, 0xBF]

  /** The /status header up to the number of groups. */
  const StatusHead: GoString := [
    0xF0, 0x9F, 0x93, 0x8A, 0x20, 0x2A, 0xD0, 0xA1, 0xD1, 0x82, 0xD0, 0xB0, 0xD1, 0x82, 0xD1, 0x83,
    0xD1, 0x81, 0x2A, 0x0A, 0x0A, 0xD0, 0x9F, 0xD0, 0xBE, 0xD0, 0xB4, 0xD0, 0xBF, 0xD0, 0xB8, 0xD1,
    0x81, 0xD0, 0xB0, 0xD0, 0xBD, 0xD0, 0xBD, 0xD1, 0x8B, 0xD1, 0x85, 0x20, 0xD0, 0xB3, 0xD1, 0x80,
    0xD1, 0x83, 0xD0, 0xBF, 0xD0, 0xBF, 0x3A, 0x20]

  /** What follows the number in the header: an empty line. */
  const BlankLine: GoString := [0x0A, 0x0A]

  /** The bullet before a group title. */
  const BulletMark: GoString := [0xE2, 0x80, 0xA2, 0x20]

  /** What ends a bullet line. */
  const NewLine: GoString := [0x0A]

  // The command names handleCommand dispatches on, and the chat types of a group.
  const CmdStartName: GoString := [0x73, 0x74, 0x61, 0x72, 0x74]  // start
  const CmdAddGroupName: GoString := [0x61, 0x64, 0x64, 0x67, 0x72, 0x6F, 0x75, 0x70]  // addgroup
  const CmdRemoveGroupName: GoString := [0x72, 0x65, 0x6D, 0x6F, 0x76, 0x65, 0x67, 0x72, 0x6F, 0x75, 0x70]  // removegroup
  const CmdStatusName: GoString := [0x73, 0x74, 0x61, 0x74, 0x75, 0x73]  // status
  const CmdHelpName: GoString := [0x68, 0x65, 0x6C, 0x70]  // help
  const GroupKind: GoString := [0x67, 0x72, 0x6F, 0x75, 0x70]  // group
  const SupergroupKind: GoString := [0x73, 0x75, 0x70, 0x65, 0x72, 0x67, 0x72, 0x6F, 0x75, 0x70]  // supergroup
}
