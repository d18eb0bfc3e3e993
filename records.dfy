/** The shapes of the records the front end reads from the record store.
    A field the store leaves empty is "" here; the source's truthiness
    checks treat "" and a missing field alike (both are falsy). */
module Records {

  /** A `directories` record; `parentDirectory` is "" for a top-level directory. */
  datatype Dir = Dir(id: string, name: string, parentDirectory: string, richText: string)

  /** A `flashcardFronts` record. */
  datatype Front = Front(
    id: string, directory: string, sequential: int, name: string,
    richText: string, subtitles: string, image: string, video: string,
    memory: int, muted: bool, youtube: string, github: string, blog: string)

  /** A `flashcardBackItems` record. */
  datatype BackRecord = BackRecord(
    id: string, flashcardFront: string, sequential: int,
    richText: string, code: string, resource: string, subtitles: string,
    image: string, video: string, audio: string, file: string,
    audioName: string, fileName: string)

  /** A record with every content field unset (the `data: {}` of a new item). */
  const EmptyBack := BackRecord("", "", 0, "", "", "", "", "", "", "", "", "", "")
}
