/** The limits of one extraction, shared by the validation and the copy of its members. */
module ArchiveLimits {

  datatype Limits = Limits(
    maxArchives: int, maxMembers: int, maxMemberBytes: int, maxTotalBytes: int,
    maxCompressionRatio: int, chunkBytes: int)
  {
    predicate Valid() {
      && maxArchives >= 1 && maxMembers >= 1 && maxMemberBytes >= 1
      && maxTotalBytes >= 1 && maxCompressionRatio >= 1 && chunkBytes >= 1
    }
  }
}
