/**
 * The Mac OS X Document Versions SQLite plugin: one creation event per
 * stored version of a file, with the user read from the version's path.
 */
module MacDocumentVersions {
  import opened Common
  import opened Timelib

  /** A row of the files/generations join. */
  datatype VersionRow = VersionRow(name: string, path: string, lastTime: int, versionPath: string, versionTime: int)

  /** eventdata.EventTimestamp.CREATION_TIME, the description of every event. */
  datatype TimeDesc = CreationTime

  datatype MacDocumentVersionsEvent = MacDocumentVersionsEvent(
    timestamp: int, timestampDesc: TimeDesc, name: string, path: string,
    versionPath: string, lastTime: int, userSid: string)

  /** The directory stored versions are relative to. */
  const ROOT_VERSION_PATH: string := "/.DocumentRevisions-V100/"

  /** unicode.isdigit on the ASCII digits: at least one character, all digits. */
  predicate IsDigitText(s: string)
  {
    s != [] && forall i :: 0 <= i < |s| ==> '0' <= s[i] <= '9'
  }

  /** The user id: the second '/'-separated part of the version path, when it is all digits. */
  function UserSid(versionPath: string): Option<string>
  {
    var paths := Split(versionPath, "/");
    if |paths| < 2 || !IsDigitText(paths[1]) then None else Some(paths[1])
  }

  /** unicode(user_sid): the id, or 'None'. */
  function SidText(sid: Option<string>): string
  {
    match sid case None => "None" case Some(s) => s
  }

  /** MacDocumentVersionsEvent's initialiser. */
  function NewEvent(row: VersionRow, path: string, versionPath: string, sid: Option<string>): MacDocumentVersionsEvent
  {
    MacDocumentVersionsEvent(FromPosixTime(row.versionTime), CreationTime, row.name, path,
                             versionPath, row.lastTime, SidText(sid))
  }

  /** DocumentVersionsRow: exactly one creation event, at the version's time. */
  function DocumentVersionsRow(row: VersionRow): (r: seq<MacDocumentVersionsEvent>)
    ensures |r| == 1
    ensures r[0].timestamp == FromPosixTime(row.versionTime) && r[0].timestampDesc == CreationTime
    ensures StartsWith(r[0].versionPath, ROOT_VERSION_PATH) &&
      r[0].versionPath[|ROOT_VERSION_PATH|..] == row.versionPath
    ensures r[0].name == row.name && r[0].lastTime == row.lastTime
  {
    var sid := UserSid(row.versionPath);
    var versionPath := ROOT_VERSION_PATH + row.versionPath;
    var path := RPartitionHead(row.path, "/");
    [NewEvent(row, path, versionPath, sid)]
  }

  /** 'PerUser/<digits>/...': the digits are the user id. */
  lemma SidFromPath(perUser: string, digits: string, rest: string)
    requires Lacks(perUser, '/') && Lacks(digits, '/') && IsDigitText(digits)
    requires rest == [] || rest[0] == '/'
    ensures UserSid(perUser + "/" + digits + rest) == Some(digits)
  {
    SplitFirst(perUser, '/', digits + rest);
    assert perUser + "/" + digits + rest == perUser + ['/'] + (digits + rest);
    SplitHead(digits, '/', rest);
  }

  /** A path without '/' has no user id. */
  lemma NoSlashNoSid(versionPath: string)
    requires Lacks(versionPath, '/')
    ensures UserSid(versionPath) == None
  {
    SplitNone(versionPath, '/');
  }

  /** A second part that is not all digits gives no user id. */
  lemma NonDigitNoSid(perUser: string, part: string, rest: string)
    requires Lacks(perUser, '/') && Lacks(part, '/') && !IsDigitText(part)
    requires rest == [] || rest[0] == '/'
    ensures UserSid(perUser + "/" + part + rest) == None
  {
    SplitFirst(perUser, '/', part + rest);
    assert perUser + "/" + part + rest == perUser + ['/'] + (part + rest);
    SplitHead(part, '/', rest);
  }

  /** The stored id reads 'None' exactly when there is no id. */
  lemma SidTextNone(row: VersionRow)
    ensures DocumentVersionsRow(row)[0].userSid == "None" <==> UserSid(row.versionPath).None?
  {
    match UserSid(row.versionPath)
      case None =>
      case Some(s) =>
        assert '0' <= s[0] <= '9';
  }

  /** The event's path is the original path's directory: what precedes its last '/'. */
  lemma PathIsDirectory(row: VersionRow, dir: string, file: string)
    requires row.path == dir + "/" + file && Lacks(file, '/')
    ensures DocumentVersionsRow(row)[0].path == dir
  {
    BeforeLastChar(dir, '/', file);
  }

  /** A path without '/' has an empty directory. */
  lemma PathWithoutDirectory(row: VersionRow)
    requires Lacks(row.path, '/')
    ensures DocumentVersionsRow(row)[0].path == []
  {
    NoCharHead(row.path, '/');
  }
}
