/** The key derivers of `common/Keys`. That file is not part of this model:
    its functions are taken as parameters, so nothing below depends on how a
    hash is spelled. Each is taken to be a deterministic function of the
    identifying attributes below. Where the source passes a whole class or
    section object, the model assumes the hash reads only those
    attributes. */
module Keys {

  /** The identifying attributes of a class: the object that
      backend/scrapers/classes/searchIndex.js:66-71 and
      frontend/components/user.js:178-183 build before asking for a class hash. */
  datatype ClassInfo = ClassInfo(host: string, termId: string, subject: string, classId: string)

  /** The identifying attributes of a section: those of its class and its CRN. */
  datatype SectionInfo = SectionInfo(host: string, termId: string, subject: string, classId: string, crn: string)
  {
    function ClassOf(): ClassInfo
    {
      ClassInfo(host, termId, subject, classId)
    }
  }

  /** `Keys.getTermHash`, `Keys.getClassHash`, `Keys.getSectionHash`. */
  datatype KeyDeriver = KeyDeriver(
    termHash: (string, string) -> string,
    classHash: ClassInfo -> string,
    sectionHash: SectionInfo -> string)
}
