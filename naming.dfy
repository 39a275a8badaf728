/** The two names the Generator derives from the serial: the file name of a
    local download and the object path of a published image. */
module Naming {

  const DownloadPrefix := "soul-id-card-"
  const UnnamedSerial := "unnamed"
  const PngSuffix := ".png"
  const PublicFolder := "public/"

  /** JavaScript's `serial || "unnamed"`: the empty string is the only falsy
      string, every other serial is kept verbatim. */
  function SerialOrUnnamed(serial: string): (r: string)
    ensures r != ""
    ensures serial != "" ==> r == serial
    ensures serial == "" ==> r == UnnamedSerial
  {
    if serial == "" then UnnamedSerial else serial
  }

  /** The download file name `soul-id-card-<serial or "unnamed">.png`. The
      serial is not sanitised: it can be read back verbatim between the
      fixed prefix and suffix. */
  function DownloadFileName(serial: string): (r: string)
    ensures |r| == |DownloadPrefix| + |SerialOrUnnamed(serial)| + |PngSuffix|
    ensures r[..|DownloadPrefix|] == DownloadPrefix
    ensures r[|r| - |PngSuffix|..] == PngSuffix
    ensures r[|DownloadPrefix|..|r| - |PngSuffix|] == SerialOrUnnamed(serial)
    ensures serial == "" ==> r == "soul-id-card-unnamed.png"
  {
    DownloadPrefix + SerialOrUnnamed(serial) + PngSuffix
  }

  /** Two serials give the same download file name exactly when they are
      equal, or when one is empty and the other is literally "unnamed". */
  lemma DownloadFileNameCollisions(a: string, b: string)
    ensures DownloadFileName(a) == DownloadFileName(b)
        <==> a == b || (a == "" && b == UnnamedSerial) || (a == UnnamedSerial && b == "")
  {
  }

  /** `crypto.randomUUID` always yields the 36-character textual form. */
  predicate IsUuid(uuid: string)
  {
    |uuid| == 36
  }

  /** The storage object path `public/<uuid>-<serial>.png`. Unlike the
      download name there is no "unnamed" fallback: an empty serial leaves
      the hyphen directly before the suffix. */
  function UploadPath(uuid: string, serial: string): (r: string)
    ensures |r| == |PublicFolder| + |uuid| + 1 + |serial| + |PngSuffix|
    ensures r[..|PublicFolder|] == PublicFolder
    ensures r[|PublicFolder|..|PublicFolder| + |uuid|] == uuid
    ensures r[|PublicFolder| + |uuid|] == '-'
    ensures r[|PublicFolder| + |uuid| + 1..|r| - |PngSuffix|] == serial
    ensures r[|r| - |PngSuffix|..] == PngSuffix
  {
    PublicFolder + uuid + "-" + serial + PngSuffix
  }

  /** For identifiers of one length (as every UUID is), the path determines
      both the identifier and the serial. */
  lemma UploadPathInjective(u1: string, s1: string, u2: string, s2: string)
    requires |u1| == |u2|
    ensures UploadPath(u1, s1) == UploadPath(u2, s2) <==> u1 == u2 && s1 == s2
  {
  }

  /** The UUID is what keeps two publishes from writing the same object:
      two different UUIDs give two different paths, whatever the serials. */
  lemma DistinctUuidsDistinctPaths(u1: string, s1: string, u2: string, s2: string)
    requires IsUuid(u1) && IsUuid(u2) && u1 != u2
    ensures UploadPath(u1, s1) != UploadPath(u2, s2)
  {
  }
}
