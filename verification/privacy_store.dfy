/** DataHandler: the encrypted candidate store, the export bundles, the audit
    log, the retention sweep and the privacy report.

    The two directories become maps keyed by file name (so that the prefix and
    suffix filters on names are real), the audit log a sequence, the clock an
    integer count of microseconds passed to each operation, and Fernet, SHA-256
    and JSON a record of functions with the properties the store relies on. */
module PrivacyStore {
  import opened Types
  import opened Strings
  import opened Sequences

  const MAX_LOG_ENTRIES := 1000
  const RECENT_ACTIVITIES := 10
  const MICROS_PER_SECOND := 1_000_000
  const MICROS_PER_DAY := 86_400_000_000

  const CANDIDATE_PREFIX := "candidate_"
  const EXPORT_PREFIX := "export_"
  const JSON_SUFFIX := ".json"

  // ---------------------------------------------------------------------------
  // Cryptography, hashing and JSON

  /** The primitives the store calls: Fernet encryption (with its base64
      wrapping), which fails with None; SHA-256 as a hex digest; and JSON
      encoding of a transcript, whose decoding fails with None. */
  datatype Primitives = Primitives(
    encrypt: string -> Option<string>,
    decrypt: string -> Option<string>,
    sha256Hex: string -> string,
    dumps: seq<Message> -> string,
    loads: string -> Option<seq<Message>>)

  /** What the store assumes of its primitives: decryption inverts a successful
      encryption, whose token is never empty; a text the cipher could not
      encrypt is not a valid token either; a hex digest has 64 characters; JSON
      decoding inverts encoding. */
  ghost predicate WellBehaved(p: Primitives) {
    (forall x :: p.encrypt(x).Some? ==> p.encrypt(x).value != "" && p.decrypt(p.encrypt(x).value) == Some(x))
    && (forall x :: p.encrypt(x).None? ==> p.decrypt(x).None?)
    && (forall x :: |p.sha256Hex(x)| == 64)
    && (forall h :: p.loads(p.dumps(h)) == Some(h))
  }

  /** `_encrypt_data`: fails open, returning the plain text when encryption fails. */
  function EncryptField(p: Primitives, data: string): string {
    match p.encrypt(data)
    case Some(token) => token
    case None => data
  }

  /** `_decrypt_data`: fails open, returning its input when decryption fails. */
  function DecryptField(p: Primitives, token: string): string {
    match p.decrypt(token)
    case Some(data) => data
    case None => token
  }

  /** Decryption gives back what was encrypted, on both branches of the
      fail-open encryption; a non-empty text stays non-empty. */
  lemma DecryptEncrypt(p: Primitives, x: string)
    requires WellBehaved(p)
    ensures DecryptField(p, EncryptField(p, x)) == x
    ensures x != "" ==> EncryptField(p, x) != ""
  {
    if p.encrypt(x).None? {
      assert p.decrypt(x).None?;
    }
  }

  /** `hash_email`: the first 16 hex digits of the SHA-256 digest. */
  function HashEmail(p: Primitives, email: string): string {
    Take(p.sha256Hex(email), 16)
  }

  /** `hash_phone`: the first 12 hex digits of the SHA-256 digest. */
  function HashPhone(p: Primitives, phone: string): string {
    Take(p.sha256Hex(phone), 12)
  }

  /** Both hashes are prefixes of the digest, of 16 and 12 characters; the
      phone hash of a text is a prefix of its email hash. */
  lemma HashLengths(p: Primitives, s: string)
    requires WellBehaved(p)
    ensures |HashEmail(p, s)| == 16 && |HashPhone(p, s)| == 12
    ensures HashEmail(p, s) <= p.sha256Hex(s) && HashPhone(p, s) <= HashEmail(p, s)
  {
    assert |p.sha256Hex(s)| == 64;
  }

  // ---------------------------------------------------------------------------
  // Stored records

  /** The `CandidateInfo` fields handed to `save_candidate_data`. */
  datatype CandidateData = CandidateData(
    fullName: string, email: string, phone: string, yearsExperience: string,
    desiredPositions: string, currentLocation: string, techStack: seq<string>)

  /** `metadata.completion_status` */
  datatype Completion = Complete | Incomplete

  /** The JSON object written to `candidate_<id>.json`. Encrypted fields are
      None where the source writes null, and the timestamp is None when the
      file has no `timestamp` that `fromisoformat` reads; the constant
      `data_version`, `privacy_compliant` and null metadata entries are not
      kept. */
  datatype StoredRecord = StoredRecord(
    sessionId: string, timestamp: Option<int>,
    fullNameEnc: Option<string>, emailEnc: Option<string>,
    phoneEnc: Option<string>, locationEnc: Option<string>,
    yearsExperience: string, desiredPositions: string, techStack: seq<string>,
    emailHash: Option<string>, phoneHash: Option<string>,
    completion: Completion, historyEnc: Option<string>)

  /** A file of the encrypted directory: a record, or a file that is not
      JSON. */
  datatype StoredFile = Record(record: StoredRecord) | Unreadable

  /** A record whose timestamp the sweep and the report can read. */
  predicate Dated(f: StoredFile) {
    f.Record? && f.record.timestamp.Some?
  }

  /** The decrypted `candidate_info` dictionary of a loaded record. */
  datatype PersonalInfo = PersonalInfo(
    fullName: Option<string>, email: Option<string>, phone: Option<string>,
    currentLocation: Option<string>, yearsExperience: string,
    desiredPositions: string, techStack: seq<string>)

  /** What `load_candidate_data` returns. */
  datatype LoadedRecord = LoadedRecord(
    sessionId: string, timestamp: Option<int>, info: PersonalInfo,
    emailHash: Option<string>, phoneHash: Option<string>,
    completion: Completion, history: Option<seq<Message>>)

  /** Python truthiness of a string, as an optional value. */
  function Present(s: string): Option<string> {
    if s == "" then None else Some(s)
  }

  function EncryptIfPresent(p: Primitives, s: string): Option<string> {
    if s == "" then None else Some(EncryptField(p, s))
  }

  /** The record `save_candidate_data` writes at time `now`. */
  function BuildRecord(p: Primitives, info: CandidateData, sessionId: string,
                       history: seq<Message>, now: int): (r: StoredRecord)
    ensures r.timestamp == Some(now)
    ensures r.completion == Complete <==> history != []
    ensures r.historyEnc.Some? <==> history != []
    ensures r.emailHash.Some? <==> info.email != ""
    ensures r.phoneHash.Some? <==> info.phone != ""
  {
    StoredRecord(
      sessionId, Some(now),
      EncryptIfPresent(p, info.fullName), EncryptIfPresent(p, info.email),
      EncryptIfPresent(p, info.phone), EncryptIfPresent(p, info.currentLocation),
      info.yearsExperience, info.desiredPositions, info.techStack,
      if info.email != "" then Some(HashEmail(p, info.email)) else None,
      if info.phone != "" then Some(HashPhone(p, info.phone)) else None,
      if history != [] then Complete else Incomplete,
      if history != [] then Some(EncryptField(p, p.dumps(history))) else None)
  }

  /** A field is decrypted only when its stored value is a non-empty string. */
  function DecryptIfPresent(p: Primitives, enc: Option<string>): Option<string> {
    if enc.Some? && enc.value != "" then Some(DecryptField(p, enc.value)) else None
  }

  /** The decryption step of `load_candidate_data`: None when the stored
      transcript does not decode. */
  function DecodeRecord(p: Primitives, r: StoredRecord): Option<LoadedRecord> {
    var info := PersonalInfo(
      DecryptIfPresent(p, r.fullNameEnc), DecryptIfPresent(p, r.emailEnc),
      DecryptIfPresent(p, r.phoneEnc), DecryptIfPresent(p, r.locationEnc),
      r.yearsExperience, r.desiredPositions, r.techStack);
    match r.historyEnc
    case None => Some(LoadedRecord(r.sessionId, r.timestamp, info, r.emailHash, r.phoneHash, r.completion, None))
    case Some(h) =>
      match p.loads(DecryptField(p, h))
      case None => None
      case Some(ms) => Some(LoadedRecord(r.sessionId, r.timestamp, info, r.emailHash, r.phoneHash, r.completion, Some(ms)))
  }

  /** `candidate_<id>.json` */
  function CandidateFile(sessionId: string): string {
    CANDIDATE_PREFIX + sessionId + JSON_SUFFIX
  }

  /** What loading `sessionId` from the encrypted directory `files` yields. */
  function LoadResult(p: Primitives, files: map<string, StoredFile>, sessionId: string): Option<LoadedRecord> {
    var name := CandidateFile(sessionId);
    if name !in files then None
    else match files[name]
      case Unreadable => None
      case Record(r) => DecodeRecord(p, r)
  }

  /** Save then load: non-empty name, email, phone and location come back
      equal and empty ones as None; experience, positions and stack come back
      verbatim; the transcript comes back exactly when it was non-empty. */
  lemma SaveLoadRoundTrip(p: Primitives, info: CandidateData, sessionId: string, history: seq<Message>, now: int)
    requires WellBehaved(p)
    ensures DecodeRecord(p, BuildRecord(p, info, sessionId, history, now)) == Some(LoadedRecord(
      sessionId, Some(now),
      PersonalInfo(Present(info.fullName), Present(info.email), Present(info.phone),
                   Present(info.currentLocation), info.yearsExperience, info.desiredPositions, info.techStack),
      if info.email != "" then Some(HashEmail(p, info.email)) else None,
      if info.phone != "" then Some(HashPhone(p, info.phone)) else None,
      if history != [] then Complete else Incomplete,
      if history != [] then Some(history) else None))
  {
    DecryptEncrypt(p, info.fullName);
    DecryptEncrypt(p, info.email);
    DecryptEncrypt(p, info.phone);
    DecryptEncrypt(p, info.currentLocation);
    if history != [] {
      DecryptEncrypt(p, p.dumps(history));
    }
  }

  /** Loading does not look at the timestamp: a record without one loads as
      a dated one would, while the sweep never removes it. */
  lemma UndatedStillLoads(p: Primitives, files: map<string, StoredFile>, sessionId: string, t: int, cutoff: int)
    requires CandidateFile(sessionId) in files && files[CandidateFile(sessionId)].Record?
    requires files[CandidateFile(sessionId)].record.timestamp.None?
    ensures var r := files[CandidateFile(sessionId)].record;
      var dated := LoadResult(p, files[CandidateFile(sessionId) := Record(r.(timestamp := Some(t)))], sessionId);
      (LoadResult(p, files, sessionId).Some? <==> dated.Some?)
      && (dated.Some? ==> dated.value.timestamp == Some(t)
                          && LoadResult(p, files, sessionId) == Some(dated.value.(timestamp := None)))
    ensures !Expired(CandidateFile(sessionId), files[CandidateFile(sessionId)], cutoff)
  {
  }

  // ---------------------------------------------------------------------------
  // Export files

  /** `export_info` and `conversation_summary` of an export bundle, with the
      decrypted personal information; the fixed privacy notice is not kept. */
  datatype ExportBundle = ExportBundle(
    exportedAt: int, sessionId: string, format: string,
    personalInformation: PersonalInfo, totalMessages: nat, completion: Completion)

  /** An export file and its modification time. */
  datatype ExportFile = ExportFile(bundle: ExportBundle, mtime: int)

  /** The bundle `export_candidate_data` writes for loaded `data`. */
  function MakeBundle(data: LoadedRecord, sessionId: string, format: string, now: int): (b: ExportBundle)
    ensures b.totalMessages == if data.history.Some? then |data.history.value| else 0
  {
    ExportBundle(now, sessionId, format, data.info,
                 if data.history.Some? then |data.history.value| else 0, data.completion)
  }

  /** The decimal digits of `n`. */
  function Digits(n: nat): (s: string)
    ensures |s| >= 1
    ensures forall i :: 0 <= i < |s| ==> IsDigit(s[i])
  {
    if n < 10 then [('0' as int + n) as char] else Digits(n / 10) + [('0' as int + n % 10) as char]
  }

  /** `n` in decimal, left-padded with zeros to `width` characters. */
  function ZeroPad(n: nat, width: nat): (s: string)
    ensures |s| >= width
  {
    var d := Digits(n);
    if |d| >= width then d else seq(width - |d|, _ => '0') + d
  }

  /** The proleptic Gregorian (year, month, day) of a count of days since
      1970-01-01. */
  function CivilFromDays(days: int): (int, int, int) {
    var z := days + 719468;
    var era := z / 146097;
    var doe := z - era * 146097;
    var yoe := (doe - doe / 1460 + doe / 36524 - doe / 146096) / 365;
    var doy := doe - (365 * yoe + yoe / 4 - yoe / 100);
    var mp := (5 * doy + 2) / 153;
    var day := doy - (153 * mp + 2) / 5 + 1;
    var month := if mp < 10 then mp + 3 else mp - 9;
    var year := yoe + era * 400;
    (if month <= 2 then year + 1 else year, month, day)
  }

  /** `strftime('%Y%m%d_%H%M%S')` of a whole number of seconds since the epoch. */
  function Stamp(seconds: int): string {
    var days := seconds / 86400;
    var secs := seconds % 86400;
    var (y, m, d) := CivilFromDays(days);
    ZeroPad(if y < 0 then 0 else y, 4) + ZeroPad(if m < 0 then 0 else m, 2) + ZeroPad(if d < 0 then 0 else d, 2)
      + "_" + ZeroPad(secs / 3600, 2) + ZeroPad(secs % 3600 / 60, 2) + ZeroPad(secs % 60, 2)
  }

  /** The prefix shared by every export file of a session. */
  function ExportPrefix(sessionId: string): string {
    EXPORT_PREFIX + sessionId + "_"
  }

  /** The time stamp of an export made at clock reading `now`: local time to
      the second. */
  function ExportStamp(now: int): string {
    Stamp(now / MICROS_PER_SECOND)
  }

  /** `export_<id>_<stamp>.json` */
  function ExportName(sessionId: string, stamp: string): string {
    ExportPrefix(sessionId) + stamp + JSON_SUFFIX
  }

  /** An export's name carries its session's export prefix and the `export_`
      prefix the sweep looks for, and ends in `.json`. */
  lemma ExportNameShape(sessionId: string, stamp: string)
    ensures StartsWith(ExportName(sessionId, stamp), ExportPrefix(sessionId))
    ensures StartsWith(ExportName(sessionId, stamp), EXPORT_PREFIX)
    ensures EndsWith(ExportName(sessionId, stamp), JSON_SUFFIX)
  {
    var name := ExportName(sessionId, stamp);
    assert name == ExportPrefix(sessionId) + (stamp + JSON_SUFFIX);
    assert name == EXPORT_PREFIX + (sessionId + "_" + stamp + JSON_SUFFIX);
    assert name[|name| - |JSON_SUFFIX|..] == JSON_SUFFIX;
  }

  /** The name has second resolution: two exports of a session made within
      the same second get the same name, and the second overwrites the first. */
  lemma SameSecondSameName(sessionId: string, now: int, later: int)
    requires now <= later < now - now % MICROS_PER_SECOND + MICROS_PER_SECOND
    ensures ExportName(sessionId, ExportStamp(later)) == ExportName(sessionId, ExportStamp(now))
  {
    assert later / MICROS_PER_SECOND == now / MICROS_PER_SECOND;
  }

  /** The erasure prefix of a session is also a prefix of the export names of
      any session whose id extends it with "_": erasing session "a" removes
      the exports of session "a_b". */
  lemma ExportPrefixOverlap(id: string, rest: string, stamp: string)
    ensures StartsWith(ExportName(id + "_" + rest, stamp), ExportPrefix(id))
  {
    var name := ExportName(id + "_" + rest, stamp);
    assert name == ExportPrefix(id) + (rest + "_" + stamp + JSON_SUFFIX);
  }

  // ---------------------------------------------------------------------------
  // Audit log

  datatype Activity = SAVE | LOAD | EXPORT | DELETE | AUTO_DELETE

  /** The `metadata` dictionary of each kind of log entry. */
  datatype LogMeta =
    | NoMeta
    | SaveMeta(hasPersonalInfo: bool, hasContactInfo: bool, techStackCount: nat)
    | ExportMeta(format: string)
    | DeleteMeta(reason: string)
    | AutoDeleteMeta(retentionDays: int, fileAgeDays: int)

  datatype LogEntry = LogEntry(timestamp: int, activity: Activity, sessionId: string, metadata: LogMeta)

  /** `activities[-1000:]` when there are more than 1000 entries. */
  function Cap(activities: seq<LogEntry>): (r: seq<LogEntry>)
    ensures |r| == Min(|activities|, MAX_LOG_ENTRIES)
    ensures |r| <= MAX_LOG_ENTRIES && |r| <= |activities|
    ensures r == activities[|activities| - |r|..]
    ensures |activities| <= MAX_LOG_ENTRIES ==> r == activities
  {
    LastN(activities, MAX_LOG_ENTRIES)
  }

  /** After an append the log holds at most 1000 entries, the new one last,
      and the earlier entries it keeps are the most recent ones of the old
      log, in order. */
  lemma AppendToLog(log: seq<LogEntry>, e: LogEntry)
    ensures var r := Cap(log + [e]);
      |r| <= MAX_LOG_ENTRIES && r != [] && r[|r| - 1] == e
      && r[..|r| - 1] == log[|log| - (|r| - 1)..]
  {
    var r := Cap(log + [e]);
    assert r == (log + [e])[|log| + 1 - |r|..];
  }

  /** Capping after every append is the same as capping once at the end. */
  lemma CapAppend(log: seq<LogEntry>, e: LogEntry)
    ensures Cap(Cap(log) + [e]) == Cap(log + [e])
  {
    if |log| > MAX_LOG_ENTRIES {
      var c := Cap(log);
      assert c + [e] == (log + [e])[|log| - MAX_LOG_ENTRIES..];
      assert Cap(c + [e]) == (c + [e])[1..];
      assert (log + [e])[|log| + 1 - MAX_LOG_ENTRIES..] == (c + [e])[1..];
    }
  }

  lemma {:induction false} CapAppendAll(log: seq<LogEntry>, es: seq<LogEntry>, e: LogEntry)
    ensures Cap(Cap(log + es) + [e]) == Cap(log + (es + [e]))
  {
    CapAppend(log + es, e);
    assert log + es + [e] == log + (es + [e]);
  }

  // ---------------------------------------------------------------------------
  // Retention and the report

  /** `datetime.now() - timedelta(days=retention_days)` */
  function RetentionCutoff(now: int, retentionDays: int): int {
    now - retentionDays * MICROS_PER_DAY
  }

  /** The sweep considers `candidate_*.json` files only. */
  predicate IsCandidateFileName(name: string) {
    StartsWith(name, CANDIDATE_PREFIX) && EndsWith(name, JSON_SUFFIX)
  }

  /** A stored file the sweep removes: a dated candidate record written
      strictly before the cutoff. */
  predicate Expired(name: string, f: StoredFile, cutoff: int) {
    IsCandidateFileName(name) && Dated(f) && f.record.timestamp.value < cutoff
  }

  /** An export file the sweep removes. */
  predicate ExportExpired(name: string, f: ExportFile, cutoff: int) {
    StartsWith(name, EXPORT_PREFIX) && f.mtime < cutoff
  }

  function ExpiredNames(files: map<string, StoredFile>, cutoff: int): set<string> {
    set name | name in files && Expired(name, files[name], cutoff)
  }

  /** The files the sweep keeps. */
  function Unexpired(files: map<string, StoredFile>, cutoff: int): map<string, StoredFile> {
    map name | name in files && !Expired(name, files[name], cutoff) :: files[name]
  }

  function UnexpiredExports(files: map<string, ExportFile>, cutoff: int): map<string, ExportFile> {
    map name | name in files && !ExportExpired(name, files[name], cutoff) :: files[name]
  }

  /** The exports erasure keeps. */
  function WithoutPrefix(files: map<string, ExportFile>, prefix: string): map<string, ExportFile> {
    map name | name in files && !StartsWith(name, prefix) :: files[name]
  }

  /** The sweep's files while the names in `pending` are still to be visited. */
  function Kept(files: map<string, StoredFile>, pending: set<string>, cutoff: int): map<string, StoredFile> {
    map name | name in files && (name in pending || !Expired(name, files[name], cutoff)) :: files[name]
  }

  /** The names the sweep has removed while `pending` is still to be visited. */
  function Swept(files: map<string, StoredFile>, pending: set<string>, cutoff: int): set<string> {
    set name | name in files && name !in pending && Expired(name, files[name], cutoff)
  }

  /** Visiting one pending name removes it exactly when it is expired. */
  lemma SweepStep(files: map<string, StoredFile>, pending: set<string>, cutoff: int, name: string)
    requires name in pending && pending <= files.Keys
    ensures name in Kept(files, pending, cutoff) && Kept(files, pending, cutoff)[name] == files[name]
    ensures name !in Swept(files, pending, cutoff)
    ensures Expired(name, files[name], cutoff) ==>
      Kept(files, pending - {name}, cutoff) == Kept(files, pending, cutoff) - {name}
      && Swept(files, pending - {name}, cutoff) == Swept(files, pending, cutoff) + {name}
    ensures !Expired(name, files[name], cutoff) ==>
      Kept(files, pending - {name}, cutoff) == Kept(files, pending, cutoff)
      && Swept(files, pending - {name}, cutoff) == Swept(files, pending, cutoff)
    ensures |Swept(files, pending - {name}, cutoff)|
      == |Swept(files, pending, cutoff)| + if Expired(name, files[name], cutoff) then 1 else 0
  {
  }

  /** A removal order that lists each swept name and is as long as the set of
      them names each expired file exactly once. */
  lemma SweptOrder(files: map<string, StoredFile>, cutoff: int, removed: seq<string>)
    requires forall name :: name in removed <==> name in Swept(files, {}, cutoff)
    requires |removed| == |Swept(files, {}, cutoff)|
    ensures NoDuplicates(removed)
    ensures forall name :: name in removed <==> name in ExpiredNames(files, cutoff)
    ensures |removed| == |ExpiredNames(files, cutoff)|
  {
    SweepDone(files, cutoff);
    assert (set x | x in removed) == ExpiredNames(files, cutoff);
    DistinctCard(removed);
  }

  /** Before the sweep nothing is removed; after it, exactly the expired files. */
  lemma SweepDone(files: map<string, StoredFile>, cutoff: int)
    ensures Kept(files, files.Keys, cutoff) == files && Swept(files, files.Keys, cutoff) == {}
    ensures Kept(files, {}, cutoff) == Unexpired(files, cutoff)
    ensures Swept(files, {}, cutoff) == ExpiredNames(files, cutoff)
  {
  }

  /** The AUTO_DELETE entry for a removed record. */
  function AutoDeleteEntry(now: int, retentionDays: int, r: StoredRecord): LogEntry
    requires r.timestamp.Some?
  {
    LogEntry(now, AUTO_DELETE, r.sessionId,
             AutoDeleteMeta(retentionDays, (now - r.timestamp.value) / MICROS_PER_DAY))
  }

  /** The AUTO_DELETE entries for the records named in `order`, in that order. */
  function AutoDeleteEntries(now: int, retentionDays: int, files: map<string, StoredFile>, order: seq<string>): (es: seq<LogEntry>)
    ensures |es| <= |order|
  {
    if order == [] then []
    else
      var last := order[|order| - 1];
      AutoDeleteEntries(now, retentionDays, files, order[..|order| - 1])
        + if last in files && Dated(files[last]) then [AutoDeleteEntry(now, retentionDays, files[last].record)] else []
  }

  lemma AutoDeleteEntriesSnoc(now: int, retentionDays: int, files: map<string, StoredFile>, order: seq<string>, name: string)
    requires name in files && Dated(files[name])
    ensures AutoDeleteEntries(now, retentionDays, files, order + [name])
      == AutoDeleteEntries(now, retentionDays, files, order) + [AutoDeleteEntry(now, retentionDays, files[name].record)]
  {
    assert (order + [name])[..|order|] == order;
  }

  /** One AUTO_DELETE append during the sweep: before the first removal the
      log is untouched, afterwards it is the capped old log plus the entries
      of the records removed so far, in removal order. */
  lemma SweepLogAdvance(oldLog: seq<LogEntry>, log: seq<LogEntry>, now: int, retentionDays: int,
                        files: map<string, StoredFile>, removed: seq<string>, name: string)
    requires name in files && Dated(files[name])
    requires removed == [] ==> log == oldLog
    requires removed != [] ==> log == Cap(oldLog + AutoDeleteEntries(now, retentionDays, files, removed))
    ensures Cap(log + [AutoDeleteEntry(now, retentionDays, files[name].record)])
      == Cap(oldLog + AutoDeleteEntries(now, retentionDays, files, removed + [name]))
  {
    var es := AutoDeleteEntries(now, retentionDays, files, removed);
    var e := AutoDeleteEntry(now, retentionDays, files[name].record);
    AutoDeleteEntriesSnoc(now, retentionDays, files, removed, name);
    if removed == [] {
      assert es + [e] == [e];
    } else {
      CapAppendAll(oldLog, es, e);
    }
  }

  /** A list has no repetitions exactly when it is as long as the set of its
      elements. */
  lemma {:induction false} DistinctCard(s: seq<string>)
    ensures |set x | x in s| <= |s|
    ensures NoDuplicates(s) <==> |set x | x in s| == |s|
  {
    if s != [] {
      var init, last := s[..|s| - 1], s[|s| - 1];
      DistinctCard(init);
      assert s == init + [last];
      assert (set x | x in s) == (set x | x in init) + {last};
      if last in init {
        var i :| 0 <= i < |init| && init[i] == last;
        assert s[i] == s[|s| - 1];
      } else if NoDuplicates(init) {
        NoDuplicatesSnoc(init, last);
      } else {
        var i, j :| 0 <= i < j < |init| && init[i] == init[j];
        assert s[i] == s[j];
      }
    }
  }

  function CandidateNames(files: map<string, StoredFile>): set<string> {
    set name | name in files && StartsWith(name, CANDIDATE_PREFIX)
  }

  /** The timestamps of the dated records among `names`. */
  function Dates(files: map<string, StoredFile>, names: set<string>): set<int> {
    set name | name in names && name in files && Dated(files[name]) :: files[name].record.timestamp.value
  }

  /** A list and a set with the same elements are empty together. */
  lemma SameElementsEmpty(s: seq<int>, d: set<int>)
    requires forall t :: t in s <==> t in d
    ensures s == [] <==> d == {}
  {
    if s != [] {
      var x := s[0];
      assert x in s ==> x in d;
    } else {
      assert forall t :: t !in d;
    }
  }

  /** The smallest element of a non-empty list: Python's `min`. */
  function Minimum(s: seq<int>): (m: int)
    requires s != []
    ensures m in s && forall x :: x in s ==> m <= x
  {
    if |s| == 1 then s[0]
    else
      assert s == [s[0]] + s[1..];
      var rest := Minimum(s[1..]); if s[0] <= rest then s[0] else rest
  }

  /** The largest element of a non-empty list: Python's `max`. */
  function Maximum(s: seq<int>): (m: int)
    requires s != []
    ensures m in s && forall x :: x in s ==> x <= m
  {
    if |s| == 1 then s[0]
    else
      assert s == [s[0]] + s[1..];
      var rest := Maximum(s[1..]); if s[0] >= rest then s[0] else rest
  }

  /** The `data_summary` and `recent_activities` of a privacy report; the
      constant `compliance_status` flags are not kept. */
  datatype PrivacyReport = PrivacyReport(
    generatedAt: int, totalRecords: nat, encryptedRecords: nat,
    oldestRecord: Option<int>, newestRecord: Option<int>,
    recentActivities: seq<LogEntry>)

  // ---------------------------------------------------------------------------
  // The handler

  class DataHandler {
    /** The cipher, digest and JSON functions, fixed for the handler's life. */
    const prims: Primitives
    /** `data/encrypted`, by file name. */
    var encrypted: map<string, StoredFile>
    /** `data/exports`, by file name. */
    var exports: map<string, ExportFile>
    /** `activity_log.json`'s `activities`. */
    var log: seq<LogEntry>

    /** A handler over existing directory contents. */
    constructor(prims: Primitives, encrypted: map<string, StoredFile>,
                exports: map<string, ExportFile>, log: seq<LogEntry>)
      ensures this.prims == prims && this.encrypted == encrypted
      ensures this.exports == exports && this.log == log
    {
      this.prims := prims;
      this.encrypted := encrypted;
      this.exports := exports;
      this.log := log;
    }

    /** `_log_data_activity`: append, then keep the last 1000 entries. */
    method LogActivity(activity: Activity, sessionId: string, metadata: LogMeta, now: int)
      modifies this`log
      ensures log == Cap(old(log) + [LogEntry(now, activity, sessionId, metadata)])
    {
      var activities := log + [LogEntry(now, activity, sessionId, metadata)];
      if |activities| > MAX_LOG_ENTRIES {
        activities := activities[|activities| - MAX_LOG_ENTRIES..];
      }
      log := activities;
    }

    /** `save_candidate_data`: write the record (replacing any earlier one of
        the session) and log SAVE. */
    method Save(info: CandidateData, sessionId: string, history: seq<Message>, now: int) returns (ok: bool)
      modifies this`encrypted, this`log
      ensures ok
      ensures encrypted == old(encrypted)[CandidateFile(sessionId) := Record(BuildRecord(prims, info, sessionId, history, now))]
      ensures log == Cap(old(log) + [LogEntry(now, SAVE, sessionId,
        SaveMeta(info.fullName != "", info.email != "", |info.techStack|))])
    {
      var record := BuildRecord(prims, info, sessionId, history, now);
      encrypted := encrypted[CandidateFile(sessionId) := Record(record)];
      LogActivity(SAVE, sessionId, SaveMeta(info.fullName != "", info.email != "", |info.techStack|), now);
      ok := true;
    }

    /** `load_candidate_data`: None, and no LOAD entry, when the file is
        missing or not JSON or its transcript does not decode; otherwise the
        decrypted record, dated or not, logged. */
    method Load(sessionId: string, now: int) returns (data: Option<LoadedRecord>)
      modifies this`log
      ensures data == LoadResult(prims, encrypted, sessionId)
      ensures log == if data.None? then old(log) else Cap(old(log) + [LogEntry(now, LOAD, sessionId, NoMeta)])
    {
      var filename := CandidateFile(sessionId);
      if filename !in encrypted {
        return None;
      }
      match encrypted[filename] {
        case Unreadable =>
          return None;
        case Record(r) =>
          data := DecodeRecord(prims, r);
          if data.None? {
            return;
          }
      }
      LogActivity(LOAD, sessionId, NoMeta, now);
    }

    /** `export_candidate_data`: load, write a bundle under a name stamped
        to the second, log EXPORT. */
    method Export(sessionId: string, format: string, now: int) returns (filename: Option<string>)
      modifies this`exports, this`log
      ensures var loaded := LoadResult(prims, encrypted, sessionId);
        if loaded.None? then
          filename.None? && exports == old(exports) && log == old(log)
        else
          filename == Some(ExportName(sessionId, ExportStamp(now)))
          && exports == old(exports)[ExportName(sessionId, ExportStamp(now)) :=
               ExportFile(MakeBundle(loaded.value, sessionId, format, now), now)]
          && log == Cap(old(log) + [LogEntry(now, LOAD, sessionId, NoMeta),
                                    LogEntry(now, EXPORT, sessionId, ExportMeta(format))])
    {
      var data := Load(sessionId, now);
      if data.None? {
        return None;
      }
      var name := ExportName(sessionId, ExportStamp(now));
      exports := exports[name := ExportFile(MakeBundle(data.value, sessionId, format, now), now)];
      ghost var loadEntry, exportEntry := LogEntry(now, LOAD, sessionId, NoMeta), LogEntry(now, EXPORT, sessionId, ExportMeta(format));
      CapAppendAll(old(log), [loadEntry], exportEntry);
      assert [loadEntry] + [exportEntry] == [loadEntry, exportEntry];
      LogActivity(EXPORT, sessionId, ExportMeta(format), now);
      filename := Some(name);
    }

    /** `delete_candidate_data`: when the record exists, log DELETE, remove it
        and every export whose name starts with `export_<id>_`. */
    method Delete(sessionId: string, reason: string, now: int) returns (ok: bool)
      modifies this`encrypted, this`exports, this`log
      ensures ok == (CandidateFile(sessionId) in old(encrypted))
      ensures !ok ==> encrypted == old(encrypted) && exports == old(exports) && log == old(log)
      ensures ok ==> log == Cap(old(log) + [LogEntry(now, DELETE, sessionId, DeleteMeta(reason))])
      ensures ok ==> encrypted == old(encrypted) - {CandidateFile(sessionId)}
      ensures ok ==> exports == WithoutPrefix(old(exports), ExportPrefix(sessionId))
    {
      var filename := CandidateFile(sessionId);
      if filename !in encrypted {
        return false;
      }
      LogActivity(DELETE, sessionId, DeleteMeta(reason), now);
      encrypted := encrypted - {filename};
      RemoveExportsStartingWith(ExportPrefix(sessionId));
      return true;
    }

    /** The export loop of `delete_candidate_data`: remove each listed export
        whose name starts with `pattern`. */
    method RemoveExportsStartingWith(pattern: string)
      modifies this`exports
      ensures exports == WithoutPrefix(old(exports), pattern)
    {
      var listing := exports.Keys;
      while listing != {}
        invariant listing <= old(exports).Keys
        invariant exports == map name | name in old(exports) && (name in listing || !StartsWith(name, pattern)) :: old(exports)[name]
        decreases |listing|
      {
        var name :| name in listing;
        if StartsWith(name, pattern) {
          exports := exports - {name};
        }
        listing := listing - {name};
      }
    }

    /** `cleanup_old_data`: remove every dated `candidate_*.json` record
        older than the cutoff, logging AUTO_DELETE for each (in directory
        order, here `removed`), then every export older than the cutoff. */
    method CleanupOldData(retentionDays: int, now: int) returns (deletedCount: nat, ghost removed: seq<string>)
      modifies this`encrypted, this`exports, this`log
      ensures encrypted == Unexpired(old(encrypted), RetentionCutoff(now, retentionDays))
      ensures exports == UnexpiredExports(old(exports), RetentionCutoff(now, retentionDays))
      ensures NoDuplicates(removed)
      ensures forall name :: name in removed <==> name in ExpiredNames(old(encrypted), RetentionCutoff(now, retentionDays))
      ensures deletedCount == |removed| == |ExpiredNames(old(encrypted), RetentionCutoff(now, retentionDays))|
      ensures removed == [] ==> log == old(log)
      ensures removed != [] ==> log == Cap(old(log) + AutoDeleteEntries(now, retentionDays, old(encrypted), removed))
    {
      deletedCount, removed := RemoveExpiredRecords(retentionDays, now);
      RemoveExpiredExports(RetentionCutoff(now, retentionDays));
    }

    /** The first loop of `cleanup_old_data`, over the encrypted directory. */
    method RemoveExpiredRecords(retentionDays: int, now: int) returns (deletedCount: nat, ghost removed: seq<string>)
      modifies this`encrypted, this`log
      ensures encrypted == Unexpired(old(encrypted), RetentionCutoff(now, retentionDays))
      ensures NoDuplicates(removed)
      ensures forall name :: name in removed <==> name in ExpiredNames(old(encrypted), RetentionCutoff(now, retentionDays))
      ensures deletedCount == |removed| == |ExpiredNames(old(encrypted), RetentionCutoff(now, retentionDays))|
      ensures removed == [] ==> log == old(log)
      ensures removed != [] ==> log == Cap(old(log) + AutoDeleteEntries(now, retentionDays, old(encrypted), removed))
    {
      ghost var files0, log0 := encrypted, log;
      var cutoff := RetentionCutoff(now, retentionDays);
      deletedCount := 0;
      removed := [];
      var listing := encrypted.Keys;
      SweepDone(encrypted, cutoff);
      while listing != {}
        invariant listing <= files0.Keys
        invariant encrypted == Kept(files0, listing, cutoff)
        invariant forall name :: name in removed <==> name in Swept(files0, listing, cutoff)
        invariant |removed| == |Swept(files0, listing, cutoff)|
        invariant deletedCount == |removed|
        invariant removed == [] ==> log == log0
        invariant removed != [] ==> log == Cap(log0 + AutoDeleteEntries(now, retentionDays, files0, removed))
        decreases |listing|
      {
        var name :| name in listing;
        SweepStep(files0, listing, cutoff, name);
        var hit := SweepRecord(name, cutoff, retentionDays, now, files0, log0, listing, removed);
        if hit {
          deletedCount := deletedCount + 1;
          removed := removed + [name];
        }
        listing := listing - {name};
      }
      SweptOrder(files0, cutoff, removed);
    }

    /** One step of the record sweep: a dated candidate record older than
        the cutoff gets an AUTO_DELETE entry and is removed; anything else stays.
        `files0`, `log0`, `pending` and `removed` describe the sweep so far. */
    method SweepRecord(name: string, cutoff: int, retentionDays: int, now: int,
                       ghost files0: map<string, StoredFile>, ghost log0: seq<LogEntry>,
                       ghost pending: set<string>, ghost removed: seq<string>) returns (hit: bool)
      requires name in pending && pending <= files0.Keys
      requires encrypted == Kept(files0, pending, cutoff)
      requires removed == [] ==> log == log0
      requires removed != [] ==> log == Cap(log0 + AutoDeleteEntries(now, retentionDays, files0, removed))
      modifies this`encrypted, this`log
      ensures hit == Expired(name, files0[name], cutoff)
      ensures encrypted == Kept(files0, pending - {name}, cutoff)
      ensures hit ==> log == Cap(log0 + AutoDeleteEntries(now, retentionDays, files0, removed + [name]))
      ensures !hit ==> log == old(log)
    {
      SweepStep(files0, pending, cutoff, name);
      hit := false;
      if IsCandidateFileName(name) {
        match encrypted[name] {
          case Unreadable =>
          case Record(r) =>
            if r.timestamp.Some? && r.timestamp.value < cutoff {
              SweepLogAdvance(log0, log, now, retentionDays, files0, removed, name);
              LogActivity(AUTO_DELETE, r.sessionId, AutoDeleteMeta(retentionDays, (now - r.timestamp.value) / MICROS_PER_DAY), now);
              encrypted := encrypted - {name};
              hit := true;
            }
        }
      }
    }

    /** The second loop of `cleanup_old_data`, over the export directory. */
    method RemoveExpiredExports(cutoff: int)
      modifies this`exports
      ensures exports == UnexpiredExports(old(exports), cutoff)
    {
      var listing := exports.Keys;
      while listing != {}
        invariant listing <= old(exports).Keys
        invariant exports == map name | name in old(exports) && (name in listing || !ExportExpired(name, old(exports)[name], cutoff)) :: old(exports)[name]
        decreases |listing|
      {
        var name :| name in listing;
        if StartsWith(name, EXPORT_PREFIX) && exports[name].mtime < cutoff {
          exports := exports - {name};
        }
        listing := listing - {name};
      }
    }

    /** `get_privacy_report`: count the `candidate_*` files, take the oldest
        and newest timestamps of the dated records, and the last ten log entries. */
    method GetPrivacyReport(now: int) returns (report: PrivacyReport)
      ensures report.generatedAt == now
      ensures report.totalRecords == report.encryptedRecords == |CandidateNames(encrypted)|
      ensures report.oldestRecord.Some? <==> Dates(encrypted, CandidateNames(encrypted)) != {}
      ensures report.newestRecord.Some? <==> report.oldestRecord.Some?
      ensures report.oldestRecord.Some? ==>
        var dates := Dates(encrypted, CandidateNames(encrypted));
        report.oldestRecord.value in dates && report.newestRecord.value in dates
        && report.oldestRecord.value <= report.newestRecord.value
        && forall t :: t in dates ==> report.oldestRecord.value <= t <= report.newestRecord.value
      ensures report.recentActivities == LastN(log, RECENT_ACTIVITIES)
    {
      var files := set name | name in encrypted && StartsWith(name, CANDIDATE_PREFIX);
      var total := |files|;
      var dates: seq<int> := [];
      var listing := files;
      while listing != {}
        invariant listing <= files
        invariant forall t :: t in dates <==> t in Dates(encrypted, files - listing)
        decreases |listing|
      {
        var name :| name in listing;
        match encrypted[name] {
          case Unreadable =>
          case Record(r) =>
            if r.timestamp.Some? {
              dates := dates + [r.timestamp.value];
            }
        }
        listing := listing - {name};
      }
      assert files - listing == files;
      SameElementsEmpty(dates, Dates(encrypted, files));
      var oldest, newest := None, None;
      if dates != [] {
        oldest, newest := Some(Minimum(dates)), Some(Maximum(dates));
      }
      var recent := if |log| > RECENT_ACTIVITIES then log[|log| - RECENT_ACTIVITIES..] else log;
      report := PrivacyReport(now, total, total, oldest, newest, recent);
    }
  }
}
