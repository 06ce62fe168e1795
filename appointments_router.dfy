/**
 * The appointment endpoints of api/appointments_router.py over the
 * appointment collection, the audio files on disk and the graph mirror:
 * create, list, patch, delete, process an audio recording (store the file,
 * transcribe it, summarise the transcript, write the results back) and serve
 * the recording.
 *
 * Every endpoint that takes an appointment id checks its format (400) before
 * any lookup, then requires the appointment to belong to the caller (404).
 * The raw id string, not its canonical form, names the audio directory.
 */
module AppointmentsRouter {
  import opened Common
  import opened Schemas
  import opened DocumentStore
  import opened GeminiService
  import opened GraphMirror

  const InvalidAppointmentId := HttpError(400, "Invalid appointment ID.")
  const AppointmentNotFound := HttpError(404, "Appointment not found.")
  const NoUpdateData := HttpError(400, "No update data provided.")
  const AudioRecordNotFound := HttpError(404, "Audio record not found for this appointment.")
  const AudioFileNotFound := HttpError(404, "Audio file not found on server.")
  const DeletedMessage := "Appointment deleted successfully."

  /** `settings.AUDIO_FILES_DIR`. */
  const AudioFilesDir := "audio_records"

  /** The filter `{"_id": ..., "user_id": user_id}` matches appointment `k`. */
  predicate OwnedBy(docs: map<Oid, Appointment>, k: Oid, userId: string)
  {
    k in docs && docs[k].userId == userId
  }

  function AppointmentOwner(a: Appointment): string
  {
    a.userId
  }

  function AppointmentTimeOf(a: Appointment): int
  {
    a.appointmentTime
  }

  /** Every stored appointment meets the `AppointmentBase` constraints. */
  predicate AllValid(docs: map<Oid, Appointment>)
  {
    forall k :: k in docs ==> ValidAppointment(docs[k])
  }

  /**
   * A stored appointment `AppointmentInDB(**doc)` accepts: the base
   * constraints hold and the structured summary, when not null, is an object.
   * Reading back any other document raises, and the request fails with 500.
   */
  predicate Loadable(a: Appointment)
  {
    && ValidAppointment(a)
    && (a.structuredSummary.None? || a.structuredSummary.value.JNull? || a.structuredSummary.value.JObject?)
  }

  // ---------------------------------------------------------------- audio files

  /** A location on disk: the directory entries from the root down to a file or directory. */
  type Location = seq<string>

  /**
   * The files on disk, by location (see `Resolve`), and the process's working
   * directory, from which relative paths are walked: two path strings that
   * resolve to the same location name the same file.
   */
  class AudioStore {
    const cwd: Location
    var files: set<Location>

    constructor (cwd: Location, files: set<Location>)
      ensures this.cwd == cwd && this.files == files
    {
      this.cwd := cwd;
      this.files := files;
    }
  }

  /** `os.path.join(a, b)` on POSIX: an absolute `b` replaces `a`; otherwise one separator goes between them. */
  function JoinPath(a: string, b: string): (p: string)
    ensures |b| > 0 && b[0] == '/' ==> p == b
    ensures !(|b| > 0 && b[0] == '/') && a != "" && a[|a| - 1] != '/' ==> p == a + "/" + b
  {
    if |b| > 0 && b[0] == '/' then b
    else if a == "" || a[|a| - 1] == '/' then a + b
    else a + "/" + b
  }

  /** The directory of one appointment's recordings: `AUDIO_FILES_DIR/user_id/appointment_id`. */
  function AudioDir(userId: string, rawId: string): (dir: string)
    ensures userId != "" && userId[0] != '/' && userId[|userId| - 1] != '/' && rawId != "" && rawId[0] != '/' ==>
      dir == AudioFilesDir + "/" + userId + "/" + rawId
  {
    JoinPath(JoinPath(AudioFilesDir, userId), rawId)
  }

  /** A single directory entry's name: not empty, not `.` or `..`, and without a separator. */
  predicate PlainName(s: string)
  {
    s != "" && s != "." && s != ".." && '/' !in s
  }

  /** A location made of directory entries only, as the kernel's own paths are. */
  predicate Canonical(loc: Location)
  {
    forall k :: 0 <= k < |loc| ==> PlainName(loc[k])
  }

  /**
   * How the kernel walks the segments of a path from a directory, with no
   * symbolic links and every directory on the way present: empty and `.`
   * segments are skipped, and `..` goes back one entry or stays put at the root.
   */
  function Walk(done: Location, segments: seq<string>): Location
    decreases |segments|
  {
    if segments == [] then done
    else
      var s := segments[0];
      if s == "" || s == "." then Walk(done, segments[1..])
      else if s == ".." then
        if |done| > 0 then Walk(done[..|done| - 1], segments[1..]) else Walk(done, segments[1..])
      else Walk(done + [s], segments[1..])
  }

  /** Walking segments without separators from a canonical location ends at a canonical location. */
  lemma {:induction false} WalkCanonical(done: Location, segments: seq<string>)
    requires forall k :: 0 <= k < |segments| ==> '/' !in segments[k]
    ensures Canonical(done) ==> Canonical(Walk(done, segments))
    decreases |segments|
  {
    if segments != [] {
      var s := segments[0];
      assert '/' !in s;
      var next := if s == "" || s == "." then done
                  else if s == ".." then (if |done| > 0 then done[..|done| - 1] else done)
                  else done + [s];
      assert Walk(done, segments) == Walk(next, segments[1..]);
      WalkCanonical(next, segments[1..]);
    }
  }

  /**
   * The location a path names: an absolute path is walked from the root, a
   * relative one from the working directory `cwd`.
   */
  function Resolve(cwd: Location, p: string): (loc: Location)
    ensures Canonical(cwd) ==> Canonical(loc)
  {
    var segments := Split(p, '/');
    var start := if |p| > 0 && p[0] == '/' then [] else cwd;
    WalkCanonical(start, segments);
    Walk(start, segments)
  }

  /** Location `loc` lies somewhere below directory location `dir`. */
  predicate Under(dir: Location, loc: Location)
  {
    |dir| < |loc| && loc[..|dir|] == dir
  }

  /** `shutil.rmtree(dir)`: every file below the directory's location is gone, every other file stays. */
  function RemoveTree(files: set<Location>, cwd: Location, dir: string): (r: set<Location>)
    ensures forall f :: f in r <==> f in files && !Under(Resolve(cwd, dir), f)
  {
    set f | f in files && !Under(Resolve(cwd, dir), f)
  }

  /** Walking plain names appends each of them. */
  lemma {:induction false} WalkPlain(done: Location, segments: seq<string>)
    requires Canonical(segments)
    ensures Walk(done, segments) == done + segments
    decreases |segments|
  {
    if segments != [] {
      assert PlainName(segments[0]);
      WalkPlain(done + [segments[0]], segments[1..]);
      assert done + [segments[0]] + segments[1..] == done + segments;
    }
  }

  /** A relative path made of plain names lies that many entries below the working directory. */
  lemma ResolvePlain(cwd: Location, parts: seq<string>)
    requires |parts| >= 1 && Canonical(parts)
    ensures Resolve(cwd, Join("/", parts)) == cwd + parts
  {
    var p := Join("/", parts);
    assert PlainName(parts[0]);
    assert p[0] == parts[0][0];
    assert parts[0][0] != '/' by { assert parts[0][0] in parts[0]; }
    SplitJoin(parts, '/');
    WalkPlain(cwd, parts);
  }

  /** An absolute path spelt out from plain names is the location those names make. */
  lemma AbsolutePlain(cwd: Location, parts: seq<string>)
    requires |parts| >= 1 && Canonical(parts)
    ensures Resolve(cwd, "/" + Join("/", parts)) == parts
  {
    var whole := [""] + parts;
    assert whole[1..] == parts;
    assert Join("/", whole) == "/" + Join("/", parts);
    SplitJoin(whole, '/');
    assert Walk([], whole) == Walk([], parts);
    WalkPlain([], parts);
    assert [] + parts == parts;
  }

  /** An object id, in either case, is a plain name. */
  lemma IdIsPlain(s: string)
    requires |s| == 24 && forall k :: 0 <= k < |s| ==> IsHexDigit(s[k])
    ensures PlainName(s) && s[0] != '/' && s[|s| - 1] != '/'
  {
    assert s[0] != '/' by { assert IsHexDigit(s[0]); }
    assert s[23] != '/' by { assert IsHexDigit(s[23]); }
    assert s != "." && s != "..";
    forall k | 0 <= k < |s|
      ensures s[k] != '/'
    {
      assert IsHexDigit(s[k]);
    }
  }

  /** A stored user id is a plain name. */
  lemma OidIsPlain(userId: Oid)
    ensures PlainName(userId) && userId[0] != '/' && userId[|userId| - 1] != '/'
  {
    forall k | 0 <= k < |userId|
      ensures IsHexDigit(userId[k])
    {
      assert IsLowerHexDigit(userId[k]);
    }
    IdIsPlain(userId);
  }

  /**
   * For ids of the caller and of a well-formed appointment the directory is
   * `audio_records/<user>/<appointment>`, three entries below the working directory.
   */
  lemma AudioDirShape(cwd: Location, userId: Oid, rawId: string)
    requires IsValidObjectId(rawId)
    ensures AudioDir(userId, rawId) == AudioFilesDir + "/" + userId + "/" + rawId
    ensures AudioDir(userId, rawId) == Join("/", [AudioFilesDir, userId, rawId])
    ensures Resolve(cwd, AudioDir(userId, rawId)) == cwd + [AudioFilesDir, userId, rawId]
  {
    OidIsPlain(userId);
    IdIsPlain(rawId);
    var parts := [AudioFilesDir, userId, rawId];
    assert Join("/", parts[2..]) == rawId;
    assert Join("/", parts[1..]) == userId + "/" + rawId;
    assert Join("/", parts) == AudioFilesDir + "/" + (userId + "/" + rawId);
    ResolvePlain(cwd, parts);
  }

  /** Joining one more part appends a separator and the part. */
  lemma {:induction false} JoinSnoc(parts: seq<string>, x: string)
    requires |parts| >= 1
    ensures Join("/", parts + [x]) == Join("/", parts) + "/" + x
    decreases |parts|
  {
    var whole := parts + [x];
    assert whole[0] == parts[0] && |whole| > 1;
    if |parts| == 1 {
      assert whole[1..] == [x];
    } else {
      assert whole[1..] == parts[1..] + [x];
      JoinSnoc(parts[1..], x);
      var tail := Join("/", parts[1..]);
      calc {
        Join("/", whole);
        parts[0] + "/" + Join("/", parts[1..] + [x]);
        parts[0] + "/" + (tail + "/" + x);
        (parts[0] + "/" + tail) + "/" + x;
      }
    }
  }

  /** The path of an upload named `name` (`os.path.join(audio_dir, name)`), for a name that is not absolute. */
  lemma UploadPath(userId: Oid, rawId: string, name: string)
    requires IsValidObjectId(rawId) && name != "" && name[0] != '/'
    ensures JoinPath(AudioDir(userId, rawId), name) == Join("/", [AudioFilesDir, userId, rawId, name])
  {
    var dir := AudioDir(userId, rawId);
    AudioDirShape([], userId, rawId);
    IdIsPlain(rawId);
    assert dir[|dir| - 1] == rawId[23];
    JoinSnoc([AudioFilesDir, userId, rawId], name);
    assert [AudioFilesDir, userId, rawId] + [name] == [AudioFilesDir, userId, rawId, name];
  }

  /** A plain file name is stored directly inside the appointment's directory. */
  lemma PlainFileInDir(cwd: Location, userId: Oid, rawId: string, filename: string)
    requires IsValidObjectId(rawId) && PlainName(filename)
    ensures Resolve(cwd, JoinPath(AudioDir(userId, rawId), filename)) == Resolve(cwd, AudioDir(userId, rawId)) + [filename]
    ensures Under(Resolve(cwd, AudioDir(userId, rawId)), Resolve(cwd, JoinPath(AudioDir(userId, rawId), filename)))
  {
    AudioDirShape(cwd, userId, rawId);
    OidIsPlain(userId);
    IdIsPlain(rawId);
    assert filename[0] != '/' by { assert filename[0] in filename; }
    UploadPath(userId, rawId, filename);
    ResolvePlain(cwd, [AudioFilesDir, userId, rawId, filename]);
    var dirLoc := cwd + [AudioFilesDir, userId, rawId];
    assert cwd + [AudioFilesDir, userId, rawId, filename] == dirLoc + [filename];
    assert (dirLoc + [filename])[..|dirLoc|] == dirLoc;
  }

  /** Walking `a/u/r/../name`: the `..` takes back `r`. */
  lemma WalkDotDot(done: Location, a: string, u: string, r: string, name: string)
    requires PlainName(a) && PlainName(u) && PlainName(r) && PlainName(name)
    ensures Walk(done, [a, u, r, "..", name]) == done + [a, u, name]
  {
    assert [a, u, r, "..", name][1..] == [u, r, "..", name];
    assert Walk(done, [a, u, r, "..", name]) == Walk(done + [a], [u, r, "..", name]);
    assert [u, r, "..", name][1..] == [r, "..", name];
    assert Walk(done + [a], [u, r, "..", name]) == Walk(done + [a] + [u], [r, "..", name]);
    assert [r, "..", name][1..] == ["..", name];
    var full := done + [a] + [u] + [r];
    assert Walk(done + [a] + [u], [r, "..", name]) == Walk(full, ["..", name]);
    assert full[..|full| - 1] == done + [a] + [u];
    assert ["..", name][1..] == [name];
    assert Walk(full, ["..", name]) == Walk(done + [a] + [u], [name]);
    assert [name][1..] == [];
    assert Walk(done + [a] + [u], [name]) == Walk(done + [a] + [u] + [name], []);
    assert done + [a] + [u] + [name] == done + [a, u, name];
  }

  /** `a/u/r/../name` resolves to `a/u/name` below the working directory. */
  lemma ResolveDotDot(cwd: Location, a: string, u: string, r: string, name: string)
    requires PlainName(a) && PlainName(u) && PlainName(r) && PlainName(name)
    ensures Resolve(cwd, Join("/", [a, u, r, "..", name])) == cwd + [a, u, name]
  {
    var parts := [a, u, r, "..", name];
    assert Join("/", parts)[0] == a[0];
    assert a[0] != '/' by { assert a[0] in a; }
    SplitJoin(parts, '/');
    WalkDotDot(cwd, a, u, r, name);
  }

  /** The location of an upload named `../name`: beside the appointment directories. */
  lemma DotDotLocation(cwd: Location, userId: Oid, rawId: string, name: string)
    requires IsValidObjectId(rawId) && PlainName(name)
    ensures Resolve(cwd, JoinPath(AudioDir(userId, rawId), "../" + name)) == cwd + [AudioFilesDir, userId, name]
  {
    OidIsPlain(userId);
    IdIsPlain(rawId);
    UploadPath(userId, rawId, "../" + name);
    var head := Join("/", [AudioFilesDir, userId, rawId]);
    JoinSnoc([AudioFilesDir, userId, rawId], "../" + name);
    assert [AudioFilesDir, userId, rawId] + ["../" + name] == [AudioFilesDir, userId, rawId, "../" + name];
    assert head + "/" + ("../" + name) == head + "/" + ".." + "/" + name;
    JoinSnoc([AudioFilesDir, userId, rawId, ".."], name);
    JoinSnoc([AudioFilesDir, userId, rawId], "..");
    assert [AudioFilesDir, userId, rawId] + [".."] == [AudioFilesDir, userId, rawId, ".."];
    assert [AudioFilesDir, userId, rawId, ".."] + [name] == [AudioFilesDir, userId, rawId, "..", name];
    ResolveDotDot(cwd, AudioFilesDir, userId, rawId, name);
  }

  /**
   * A name starting with `../` climbs out of the appointment's directory into
   * the user's: it is stored beside the appointment directories, not in one.
   */
  lemma DotDotFileEscapesDir(cwd: Location, userId: Oid, rawId: string, name: string)
    requires IsValidObjectId(rawId) && PlainName(name)
    ensures Resolve(cwd, JoinPath(AudioDir(userId, rawId), "../" + name)) == cwd + [AudioFilesDir, userId, name]
    ensures !Under(Resolve(cwd, AudioDir(userId, rawId)), Resolve(cwd, JoinPath(AudioDir(userId, rawId), "../" + name)))
  {
    DotDotLocation(cwd, userId, rawId, name);
    AudioDirShape(cwd, userId, rawId);
  }

  /**
   * An absolute file name replaces the directory altogether: where the file
   * lands depends on the name alone, not on the directory or the working directory.
   */
  lemma AbsoluteFileIgnoresDir(cwd: Location, other: Location, userId: string, rawId: string, filename: string)
    requires filename != "" && filename[0] == '/'
    ensures JoinPath(AudioDir(userId, rawId), filename) == filename
    ensures Resolve(cwd, JoinPath(AudioDir(userId, rawId), filename)) == Resolve(other, filename)
  {
  }

  /** An absolute name `/name` lands at the root, outside the appointment's directory. */
  lemma RootFileEscapesDir(cwd: Location, userId: Oid, rawId: string, name: string)
    requires IsValidObjectId(rawId) && PlainName(name)
    ensures Resolve(cwd, JoinPath(AudioDir(userId, rawId), "/" + name)) == [name]
    ensures !Under(Resolve(cwd, AudioDir(userId, rawId)), Resolve(cwd, JoinPath(AudioDir(userId, rawId), "/" + name)))
  {
    AbsolutePlain(cwd, [name]);
    AudioDirShape(cwd, userId, rawId);
  }

  /**
   * An absolute name that spells out the directory's own absolute path, from
   * the working directory down, lands inside the directory after all.
   */
  lemma AbsoluteSpellingInDir(cwd: Location, userId: Oid, rawId: string, name: string)
    requires Canonical(cwd) && IsValidObjectId(rawId) && PlainName(name)
    ensures var filename := "/" + Join("/", cwd + [AudioFilesDir, userId, rawId, name]);
      && Resolve(cwd, JoinPath(AudioDir(userId, rawId), filename)) == Resolve(cwd, AudioDir(userId, rawId)) + [name]
      && Under(Resolve(cwd, AudioDir(userId, rawId)), Resolve(cwd, JoinPath(AudioDir(userId, rawId), filename)))
  {
    OidIsPlain(userId);
    IdIsPlain(rawId);
    AudioDirShape(cwd, userId, rawId);
    var dirLoc := cwd + [AudioFilesDir, userId, rawId];
    var parts := dirLoc + [name];
    assert parts == cwd + [AudioFilesDir, userId, rawId, name];
    assert Canonical(parts) by {
      forall k | 0 <= k < |parts|
        ensures PlainName(parts[k])
      {
        if k >= |cwd| {
          assert parts[k] in [AudioFilesDir, userId, rawId, name];
        }
      }
    }
    AbsolutePlain(cwd, parts);
    assert parts[..|dirLoc|] == dirLoc;
  }

  /** Deleting an appointment removes every recording stored in it under a plain name. */
  lemma DeleteRemovesRecording(files: set<Location>, cwd: Location, userId: Oid, rawId: string, filename: string)
    requires IsValidObjectId(rawId) && PlainName(filename)
    ensures var loc := Resolve(cwd, JoinPath(AudioDir(userId, rawId), filename));
      loc !in RemoveTree(files + {loc}, cwd, AudioDir(userId, rawId))
  {
    PlainFileInDir(cwd, userId, rawId, filename);
  }

  /** Deleting an appointment also removes a recording uploaded under the directory's absolute spelling. */
  lemma DeleteRemovesAbsoluteSpelling(files: set<Location>, cwd: Location, userId: Oid, rawId: string, name: string)
    requires Canonical(cwd) && IsValidObjectId(rawId) && PlainName(name)
    ensures var loc := Resolve(cwd, JoinPath(AudioDir(userId, rawId), "/" + Join("/", cwd + [AudioFilesDir, userId, rawId, name])));
      loc !in RemoveTree(files + {loc}, cwd, AudioDir(userId, rawId))
  {
    AbsoluteSpellingInDir(cwd, userId, rawId, name);
  }

  /** A recording uploaded as `../name` outlives the deletion of its appointment. */
  lemma DeleteKeepsEscapedRecording(files: set<Location>, cwd: Location, userId: Oid, rawId: string, name: string)
    requires IsValidObjectId(rawId) && PlainName(name)
    ensures var loc := Resolve(cwd, JoinPath(AudioDir(userId, rawId), "../" + name));
      loc in RemoveTree(files + {loc}, cwd, AudioDir(userId, rawId))
  {
    DotDotFileEscapesDir(cwd, userId, rawId, name);
  }

  // ---------------------------------------------------------------- transcription

  /** One speaker-labelled utterance of a transcript. */
  datatype Utterance = Utterance(speaker: string, text: string)

  /**
   * What the transcription provider gives for a file: a completed transcript
   * (whose utterance list may be None), an error status with its optional
   * error text, or an exception with its message.
   */
  datatype Transcription = Completed(utterances: Option<seq<Utterance>>) | StatusError(error: Option<string>) | Raised(message: string)

  /** `f"Speaker {utt.speaker}: {utt.text}"`. */
  function UtteranceLine(u: Utterance): string
  {
    "Speaker " + u.speaker + ": " + u.text
  }

  function TranscriptLines(us: seq<Utterance>): (lines: seq<string>)
    ensures |lines| == |us|
    ensures forall i :: 0 <= i < |us| ==> lines[i] == UtteranceLine(us[i])
  {
    seq(|us|, i requires 0 <= i < |us| => UtteranceLine(us[i]))
  }

  /** The stored transcript: one line per utterance, in order, joined by newlines. */
  function FormatTranscript(us: seq<Utterance>): string
  {
    Join("\n", TranscriptLines(us))
  }

  const TranscribeFailedPrefix := "Failed to transcribe audio: "

  /**
   * The transcript, or the 502 every failure becomes. An error status is
   * raised inside the `try` as `HTTPException(500, error)`, so its text
   * reaches the 502 as `"500: " + error` (the status phrase when the error is
   * None); iterating a None utterance list raises a `TypeError`.
   */
  function Transcribed(t: Transcription): (r: Result<string>)
    ensures r.Err? ==> r.error.status == 502 && IsPrefix(TranscribeFailedPrefix, r.error.detail)
    ensures r.Ok? <==> t.Completed? && t.utterances.Some?
    ensures r.Ok? ==> r.value == FormatTranscript(t.utterances.value)
  {
    match t
    case Completed(Some(us)) => Ok(FormatTranscript(us))
    case Completed(None) => Err(HttpError(502, TranscribeFailedPrefix + "'NoneType' object is not iterable"))
    case StatusError(e) => Err(HttpError(502, TranscribeFailedPrefix + "500: " + (if e.Some? then e.value else "Internal Server Error")))
    case Raised(message) => Err(HttpError(502, TranscribeFailedPrefix + message))
  }

  /** An utterance whose speaker and text hold no newline makes exactly one transcript line. */
  predicate SingleLine(u: Utterance)
  {
    '\n' !in u.speaker && '\n' !in u.text
  }

  /** Splitting a transcript on newlines gives back its utterance lines, in order. */
  lemma TranscriptSplitsIntoLines(us: seq<Utterance>)
    requires |us| >= 1
    requires forall i :: 0 <= i < |us| ==> SingleLine(us[i])
    ensures Split(FormatTranscript(us), '\n') == TranscriptLines(us)
  {
    var lines := TranscriptLines(us);
    forall k | 0 <= k < |lines|
      ensures '\n' !in lines[k]
    {
      var u := us[k];
      assert lines[k] == "Speaker " + u.speaker + ": " + u.text;
      assert SingleLine(u);
    }
    SplitJoin(lines, '\n');
  }

  /** The five fields processing writes onto the appointment; every other field stays. */
  function Processed(a: Appointment, transcript: string, summary: Option<string>, structured: Json, path: string, now: Time)
    : (r: Appointment)
    ensures r.userId == a.userId && r.doctorName == a.doctorName && r.specialization == a.specialization
    ensures r.reason == a.reason && r.appointmentTime == a.appointmentTime
    ensures r.transcript == Some(transcript) && r.summary == summary && r.structuredSummary == Some(structured)
    ensures r.audioPath == Some(path) && r.processedAt == Some(now)
  {
    a.(transcript := Some(transcript), summary := summary, structuredSummary := Some(structured),
       audioPath := Some(path), processedAt := Some(now))
  }

  // ---------------------------------------------------------------- patches

  /** A patch field overwrites only when it was given and is not null (`exclude_unset`, `exclude_none`). */
  function PatchOption<T>(f: Field<T>, current: Option<T>): Option<T>
  {
    if f.Given? && f.value.Some? then f.value else current
  }

  function PatchValue<T>(f: Field<T>, current: T): T
  {
    if f.Given? && f.value.Some? then f.value.value else current
  }

  /** Some field was given with a non-null value: the `$set` document is not empty. */
  predicate HasUpdateData(u: AppointmentUpdate)
  {
    || (u.doctorName.Given? && u.doctorName.value.Some?)
    || (u.specialization.Given? && u.specialization.value.Some?)
    || (u.reason.Given? && u.reason.value.Some?)
    || (u.appointmentTime.Given? && u.appointmentTime.value.Some?)
  }

  /** The appointment after `$set` with the patch's given, non-null fields. */
  function ApplyUpdate(a: Appointment, u: AppointmentUpdate): (r: Appointment)
    ensures r.userId == a.userId
    ensures r.transcript == a.transcript && r.summary == a.summary && r.structuredSummary == a.structuredSummary
    ensures r.audioPath == a.audioPath && r.processedAt == a.processedAt
    ensures u.doctorName.Given? && u.doctorName.value.Some? ==> r.doctorName == u.doctorName.value
    ensures !(u.doctorName.Given? && u.doctorName.value.Some?) ==> r.doctorName == a.doctorName
    ensures u.specialization.Given? && u.specialization.value.Some? ==> r.specialization == u.specialization.value
    ensures !(u.specialization.Given? && u.specialization.value.Some?) ==> r.specialization == a.specialization
    ensures u.reason.Given? && u.reason.value.Some? ==> r.reason == u.reason.value
    ensures !(u.reason.Given? && u.reason.value.Some?) ==> r.reason == a.reason
    ensures u.appointmentTime.Given? && u.appointmentTime.value.Some? ==> r.appointmentTime == u.appointmentTime.value.value
    ensures !(u.appointmentTime.Given? && u.appointmentTime.value.Some?) ==> r.appointmentTime == a.appointmentTime
  {
    a.(doctorName := PatchOption(u.doctorName, a.doctorName),
       specialization := PatchOption(u.specialization, a.specialization),
       reason := PatchOption(u.reason, a.reason),
       appointmentTime := PatchValue(u.appointmentTime, a.appointmentTime))
  }

  /** A patch without data would change nothing, which is why the endpoint refuses it. */
  lemma EmptyUpdateChangesNothing(a: Appointment, u: AppointmentUpdate)
    requires !HasUpdateData(u)
    ensures ApplyUpdate(a, u) == a
  {
  }

  /** Applying the same patch twice is the same as once. */
  lemma ApplyUpdateIdempotent(a: Appointment, u: AppointmentUpdate)
    ensures ApplyUpdate(ApplyUpdate(a, u), u) == ApplyUpdate(a, u)
  {
  }

  /** A valid patch keeps an appointment valid. */
  lemma ApplyUpdateKeepsValid(a: Appointment, u: AppointmentUpdate)
    requires ValidAppointment(a) && ValidAppointmentUpdate(u)
    ensures ValidAppointment(ApplyUpdate(a, u))
  {
  }

  // ---------------------------------------------------------------- download

  /**
   * `download_appointment_audio`: the path of the caller's recording, when it
   * is recorded (a non-empty `audio_path`) and its location is on disk.
   */
  function AudioDownload(docs: map<Oid, Appointment>, cwd: Location, files: set<Location>, caller: CurrentUser, rawId: string)
    : (r: Result<string>)
    ensures !IsValidObjectId(rawId) ==> r == Err(InvalidAppointmentId)
    ensures r.Ok? ==>
      var k := ParseObjectId(rawId).value;
      OwnedBy(docs, k, caller.id) && docs[k].audioPath == Some(r.value) && r.value != "" && Resolve(cwd, r.value) in files
    ensures IsValidObjectId(rawId) ==>
      var k := ParseObjectId(rawId).value;
      && (!OwnedBy(docs, k, caller.id) || docs[k].audioPath.None? || docs[k].audioPath == Some("") ==>
            r == Err(AudioRecordNotFound))
      && (OwnedBy(docs, k, caller.id) && docs[k].audioPath.Some? && docs[k].audioPath != Some("") ==>
            && (Resolve(cwd, docs[k].audioPath.value) in files ==> r == Ok(docs[k].audioPath.value))
            && (Resolve(cwd, docs[k].audioPath.value) !in files ==> r == Err(AudioFileNotFound)))
  {
    if !IsValidObjectId(rawId) then Err(InvalidAppointmentId)
    else
      var k := ParseObjectId(rawId).value;
      if !OwnedBy(docs, k, caller.id) || docs[k].audioPath.None? || docs[k].audioPath.value == "" then
        Err(AudioRecordNotFound)
      else if Resolve(cwd, docs[k].audioPath.value) !in files then Err(AudioFileNotFound)
      else Ok(docs[k].audioPath.value)
  }

  /** After a recording is processed and stored, downloading it serves that file. */
  lemma ProcessedAudioDownloads(docs: map<Oid, Appointment>, cwd: Location, files: set<Location>, caller: CurrentUser, rawId: string,
                                transcript: string, summary: Option<string>, structured: Json, path: string, now: Time)
    requires IsValidObjectId(rawId) && OwnedBy(docs, ParseObjectId(rawId).value, caller.id) && path != ""
    ensures var k := ParseObjectId(rawId).value;
      AudioDownload(docs[k := Processed(docs[k], transcript, summary, structured, path, now)], cwd, files + {Resolve(cwd, path)}, caller, rawId)
        == Ok(path)
  {
  }

  // ---------------------------------------------------------------- the endpoints

  /** `create_appointment`: stores the appointment for the caller, then mirrors it in the graph; a graph failure is swallowed. */
  method CreateAppointment(appts: Collection<Appointment>, driver: Neo4jDriver, caller: CurrentUser, a: AppointmentCreate,
                           newId: Oid, now: Time, graphFails: bool)
    returns (r: Result<(Oid, Appointment)>)
    requires newId !in appts.docs
    modifies appts, driver
    ensures driver.connected == old(driver.connected)
    ensures !ValidAppointmentCreate(a) ==>
      r == Err(ValidationError) && appts.docs == old(appts.docs) && driver.database == old(driver.database)
    ensures ValidAppointmentCreate(a) ==>
      && r == Ok((newId, NewAppointment(a, caller.id)))
      && appts.docs == old(appts.docs)[newId := NewAppointment(a, caller.id)]
      && driver.database == After(driver.connected, graphFails, old(driver.database),
                                  LinkAppointment(caller.doc.email, newId, a.doctorName, a.specialization, a.appointmentTime), now)
    ensures AllValid(old(appts.docs)) ==> AllValid(appts.docs)
  {
    if !ValidAppointmentCreate(a) {
      return Err(ValidationError);
    }
    var doc := NewAppointment(a, caller.id);
    appts.docs := appts.docs[newId := doc];
    var created := appts.docs[newId];
    var raised := CreateAppointmentNodeAndLinkToUser(driver, caller.doc.email, newId, created.doctorName,
                                                     created.specialization, created.appointmentTime, now, graphFails);
    r := Ok((newId, created));
  }

  /**
   * `get_user_appointments`: the caller's appointments, latest appointment
   * time first; one stored record that does not load fails the whole listing.
   */
  method GetUserAppointments(appts: Collection<Appointment>, caller: CurrentUser)
    returns (r: Result<seq<(Oid, Appointment)>>)
    ensures (forall k :: OwnedBy(appts.docs, k, caller.id) ==> Loadable(appts.docs[k])) ==>
      r.Ok? && OwnedListing(appts.docs, caller.id, AppointmentOwner, AppointmentTimeOf, r.value)
    ensures !(forall k :: OwnedBy(appts.docs, k, caller.id) ==> Loadable(appts.docs[k])) ==> r == Err(InternalError)
  {
    var listing := FindOwnedSortedDesc(appts.docs, caller.id, AppointmentOwner, AppointmentTimeOf);
    for i := 0 to |listing|
      invariant forall j :: 0 <= j < i ==> Loadable(listing[j].1)
    {
      if !Loadable(listing[i].1) {
        assert OwnedBy(appts.docs, listing[i].0, caller.id) && appts.docs[listing[i].0] == listing[i].1;
        return Err(InternalError);
      }
    }
    forall k | OwnedBy(appts.docs, k, caller.id)
      ensures Loadable(appts.docs[k])
    {
      assert Owned(appts.docs, k, caller.id, AppointmentOwner);
      var i :| 0 <= i < |listing| && listing[i].0 == k;
    }
    r := Ok(listing);
  }

  /** `update_appointment`: the patch is written before the updated record is read back. */
  method UpdateAppointment(appts: Collection<Appointment>, caller: CurrentUser, rawId: string, u: AppointmentUpdate)
    returns (r: Result<(Oid, Appointment)>)
    modifies appts
    ensures !ValidAppointmentUpdate(u) ==> r == Err(ValidationError) && appts.docs == old(appts.docs)
    ensures ValidAppointmentUpdate(u) && !IsValidObjectId(rawId) ==>
      r == Err(InvalidAppointmentId) && appts.docs == old(appts.docs)
    ensures ValidAppointmentUpdate(u) && IsValidObjectId(rawId) ==>
      var k := ParseObjectId(rawId).value;
      && (!OwnedBy(old(appts.docs), k, caller.id) ==> r == Err(AppointmentNotFound) && appts.docs == old(appts.docs))
      && (OwnedBy(old(appts.docs), k, caller.id) && !HasUpdateData(u) ==>
            r == Err(NoUpdateData) && appts.docs == old(appts.docs))
      && (OwnedBy(old(appts.docs), k, caller.id) && HasUpdateData(u) ==>
            && appts.docs == old(appts.docs)[k := ApplyUpdate(old(appts.docs)[k], u)]
            && r == if Loadable(ApplyUpdate(old(appts.docs)[k], u)) then Ok((k, ApplyUpdate(old(appts.docs)[k], u)))
                    else Err(InternalError))
    ensures AllValid(old(appts.docs)) ==> AllValid(appts.docs)
  {
    if !ValidAppointmentUpdate(u) {
      return Err(ValidationError);
    }
    if !IsValidObjectId(rawId) {
      return Err(InvalidAppointmentId);
    }
    var k := ParseObjectId(rawId).value;
    if !(k in appts.docs && appts.docs[k].userId == caller.id) {
      return Err(AppointmentNotFound);
    }
    if !HasUpdateData(u) {
      return Err(NoUpdateData);
    }
    if ValidAppointment(appts.docs[k]) {
      ApplyUpdateKeepsValid(appts.docs[k], u);
    }
    appts.docs := appts.docs[k := ApplyUpdate(appts.docs[k], u)];
    if !Loadable(appts.docs[k]) {
      return Err(InternalError);
    }
    r := Ok((k, appts.docs[k]));
  }

  /**
   * `delete_appointment`: removes the caller's appointment, then its audio
   * directory; `removalFails` says the directory removal raised, which is
   * swallowed (the files are then taken to stay).
   */
  method DeleteAppointment(appts: Collection<Appointment>, audio: AudioStore, caller: CurrentUser, rawId: string,
                           removalFails: bool)
    returns (r: Result<string>)
    modifies appts, audio
    ensures !IsValidObjectId(rawId) ==>
      r == Err(InvalidAppointmentId) && appts.docs == old(appts.docs) && audio.files == old(audio.files)
    ensures IsValidObjectId(rawId) ==>
      var k := ParseObjectId(rawId).value;
      && (!OwnedBy(old(appts.docs), k, caller.id) ==>
            r == Err(AppointmentNotFound) && appts.docs == old(appts.docs) && audio.files == old(audio.files))
      && (OwnedBy(old(appts.docs), k, caller.id) ==>
            && r == Ok(DeletedMessage)
            && appts.docs == old(appts.docs) - {k}
            && audio.files == if removalFails then old(audio.files) else RemoveTree(old(audio.files), audio.cwd, AudioDir(caller.id, rawId)))
    ensures AllValid(old(appts.docs)) ==> AllValid(appts.docs)
  {
    if !IsValidObjectId(rawId) {
      return Err(InvalidAppointmentId);
    }
    var k := ParseObjectId(rawId).value;
    if !(k in appts.docs && appts.docs[k].userId == caller.id) {
      return Err(AppointmentNotFound);
    }
    appts.docs := appts.docs - {k};
    if !removalFails {
      audio.files := RemoveTree(audio.files, audio.cwd, AudioDir(caller.id, rawId));
    }
    r := Ok(DeletedMessage);
  }

  /**
   * `process_appointment_audio`: stores the upload, transcribes it, and
   * writes the transcript, both summaries, the path and the time onto the
   * appointment. The file stays even when transcription fails; a missing
   * SOAP text or a structured summary that is not an object is written too,
   * and only the response then fails, with 500.
   */
  method ProcessAppointmentAudio(appts: Collection<Appointment>, audio: AudioStore, caller: CurrentUser, rawId: string,
                                 filename: string, transcribe: string -> Transcription, clientReady: bool,
                                 summarize: string -> SummaryReply, extract: string -> StructuredReply, now: Time)
    returns (r: Result<TranscriptionResponse>)
    modifies appts, audio
    ensures !IsValidObjectId(rawId) ==>
      r == Err(InvalidAppointmentId) && appts.docs == old(appts.docs) && audio.files == old(audio.files)
    ensures IsValidObjectId(rawId) && !OwnedBy(old(appts.docs), ParseObjectId(rawId).value, caller.id) ==>
      r == Err(AppointmentNotFound) && appts.docs == old(appts.docs) && audio.files == old(audio.files)
    ensures IsValidObjectId(rawId) && OwnedBy(old(appts.docs), ParseObjectId(rawId).value, caller.id) ==>
      var k := ParseObjectId(rawId).value;
      var path := JoinPath(AudioDir(caller.id, rawId), filename);
      var transcript := Transcribed(transcribe(path));
      && audio.files == old(audio.files) + {Resolve(audio.cwd, path)}
      && (transcript.Err? ==> r == Err(transcript.error) && appts.docs == old(appts.docs))
      && (transcript.Ok? ==>
            var summary := SoapSummary(clientReady, transcript.value, summarize);
            var structured := StructuredSummary(clientReady, transcript.value, extract);
            && r == (if summary.Some? && structured.JObject? then
                       Ok(TranscriptionResponse(rawId, transcript.value, summary.value, structured))
                     else Err(InternalError))
            && appts.docs == old(appts.docs)[k := Processed(old(appts.docs)[k], transcript.value, summary, structured, path, now)])
    ensures AllValid(old(appts.docs)) ==> AllValid(appts.docs)
  {
    if !IsValidObjectId(rawId) {
      return Err(InvalidAppointmentId);
    }
    var k := ParseObjectId(rawId).value;
    if !(k in appts.docs && appts.docs[k].userId == caller.id) {
      return Err(AppointmentNotFound);
    }
    var dir := AudioDir(caller.id, rawId);
    var path := JoinPath(dir, filename);
    audio.files := audio.files + {Resolve(audio.cwd, path)};
    var transcript := Transcribed(transcribe(path));
    if transcript.Err? {
      return Err(transcript.error);
    }
    var summary := SoapSummary(clientReady, transcript.value, summarize);
    var structured := StructuredSummary(clientReady, transcript.value, extract);
    appts.docs := appts.docs[k := Processed(appts.docs[k], transcript.value, summary, structured, path, now)];
    if summary.None? || !structured.JObject? {
      return Err(InternalError);
    }
    r := Ok(TranscriptionResponse(rawId, transcript.value, summary.value, structured));
  }

  /** `download_appointment_audio`. */
  method DownloadAppointmentAudio(appts: Collection<Appointment>, audio: AudioStore, caller: CurrentUser, rawId: string)
    returns (r: Result<string>)
    ensures r == AudioDownload(appts.docs, audio.cwd, audio.files, caller, rawId)
  {
    if !IsValidObjectId(rawId) {
      return Err(InvalidAppointmentId);
    }
    var k := ParseObjectId(rawId).value;
    if !(k in appts.docs && appts.docs[k].userId == caller.id) || appts.docs[k].audioPath.None? || appts.docs[k].audioPath.value == "" {
      return Err(AudioRecordNotFound);
    }
    var path := appts.docs[k].audioPath.value;
    if Resolve(audio.cwd, path) !in audio.files {
      return Err(AudioFileNotFound);
    }
    r := Ok(path);
  }
}
