/** The bounded, cursor-based log stream. */
module Logs {
  import opened Common
  import opened Sequences
  import opened Text

  const MAX_BUFFER: nat := 16_384
  const MAX_RECORD_BYTES: nat := 256 * 1024
  const MAX_BUFFER_BYTES: nat := 16 * 1024 * 1024
  const MAX_SUBJECT_BYTES: nat := 512
  const MAX_SECRET_COUNT: nat := 64
  const MAX_SECRET_BYTES: nat := 16 * 1024

  datatype LogItem = LogItem(subject: string, cursor: string, source: string, sequence: nat, message: string)

  datatype LogState = LogState(generation: nat, nextSequence: nat, bytes: nat, records: seq<LogItem>)

  datatype LogRequest = LogRequest(subject: string, source: Option<string>, cursor: Option<string>, limit: nat)

  datatype Field = SubjectAndSource | Message | Secrets | SubjectAndLimit | Cursor

  datatype LogError = Unsupported | Invalid(field: Field) | CursorExpired

  /** What the service computes with but does not define: masking of secrets, detection of leaked
      ones, and SHA-256 in hexadecimal. */
  datatype Environment = Environment(
    mask: (string, seq<string>) -> string, leaks: (string, seq<string>) -> bool,
    digest: (string, string) -> string)

  ghost predicate ColonFree(env: Environment) {
    forall a, b :: ':' !in env.digest(a, b)
  }

  // ---- Records and cursors ---------------------------------------------------------------

  function RecordBytes(r: LogItem): nat {
    |r.subject| + |r.cursor| + |r.source| + |r.message|
  }

  function TotalBytes(rs: seq<LogItem>): nat {
    if rs == [] then 0 else RecordBytes(rs[0]) + TotalBytes(rs[1..])
  }

  lemma {:induction false} TotalBytesOfPush(rs: seq<LogItem>, r: LogItem)
    ensures TotalBytes(rs + [r]) == TotalBytes(rs) + RecordBytes(r)
  {
    if rs != [] {
      assert (rs + [r])[1..] == rs[1..] + [r];
      TotalBytesOfPush(rs[1..], r);
    }
  }

  predicate IsControl(c: char) {
    c < ' ' || 127 as char <= c <= 159 as char
  }

  predicate ValidIdentity(s: string) {
    Trim(s) != "" && |s| <= MAX_SUBJECT_BYTES && forall c :: c in s ==> !IsControl(c)
  }

  function SecretBytes(secrets: seq<string>): nat {
    if secrets == [] then 0 else |secrets[0]| + SecretBytes(secrets[1..])
  }

  function Redact(env: Environment, message: string, secrets: seq<string>): Result<string, LogError> {
    if |message| > MAX_RECORD_BYTES then Err(Invalid(Message))
    else if |secrets| > MAX_SECRET_COUNT || SecretBytes(secrets) > MAX_SECRET_BYTES then Err(Invalid(Secrets))
    else
      var output := env.mask(message, secrets);
      if |output| > MAX_RECORD_BYTES || env.leaks(output, secrets) then Err(Invalid(Message))
      else Ok(output)
  }

  /** The masked message of a record that may enter the stream, or why it may not. */
  function Admission(env: Environment, supported: bool, subject: string, source: string, message: string,
                     secrets: seq<string>): Result<string, LogError> {
    if !supported then Err(Unsupported)
    else if !ValidIdentity(subject) || !ValidIdentity(source) then Err(Invalid(SubjectAndSource))
    else
      var redacted := Redact(env, message, secrets);
      if redacted.Err? then redacted
      else if env.leaks(subject, secrets) || env.leaks(source, secrets) then Err(Invalid(SubjectAndSource))
      else redacted
  }

  function PrintCursor(generation: nat, sequence: nat, fingerprint: string): string {
    "v2:" + Print(generation) + ":" + Print(sequence) + ":" + fingerprint
  }

  function NewItem(env: Environment, log: LogState, subject: string, source: string, message: string): LogItem {
    var cursor := PrintCursor(log.generation, log.nextSequence, env.digest(subject, source));
    LogItem(subject, cursor, source, log.nextSequence, message)
  }

  function ParseCursor(raw: string, fingerprint: string): Option<(nat, nat)> {
    if !("v2:" <= raw) then None
    else
      var parts := Split(raw[3..], ':');
      if |parts| != 3 || parts[2] != fingerprint then None
      else
        match (ParseU64(parts[0]), ParseU64(parts[1]))
        case (Some(g), Some(q)) => Some((g, q))
        case _ => None
  }

  lemma SplitPrintedCursor(generation: nat, sequence: nat, fingerprint: string)
    requires ':' !in fingerprint
    ensures "v2:" <= PrintCursor(generation, sequence, fingerprint)
    ensures Split(PrintCursor(generation, sequence, fingerprint)[3..], ':') == [Print(generation), Print(sequence), fingerprint]
  {
    PrintHasNoColon(generation);
    PrintHasNoColon(sequence);
    SplitTagged("v2:", Print(generation), Print(sequence), fingerprint);
  }

  /** Parsing an issued cursor for its own stream gives back its generation and sequence. */
  lemma ParsePrintedCursor(generation: nat, sequence: nat, fingerprint: string)
    requires generation <= U64_MAX && sequence <= U64_MAX && ':' !in fingerprint
    ensures ParseCursor(PrintCursor(generation, sequence, fingerprint), fingerprint) == Some((generation, sequence))
  {
    SplitPrintedCursor(generation, sequence, fingerprint);
    ParsePrinted(generation);
    ParsePrinted(sequence);
  }

  // ---- The stream's invariant ------------------------------------------------------------

  /** Every record ever appended, with the generation its cursor carries: sequences rise and stay
      below `next`, and each cursor names its own record. */
  ghost predicate Recorded(env: Environment, history: seq<LogItem>, issued: seq<nat>, next: nat) {
    && |history| == |issued|
    && (history == [] ||
        var n := |history| - 1; var r := history[n];
        && issued[n] <= n && r.sequence < next
        && r.cursor == PrintCursor(issued[n], r.sequence, env.digest(r.subject, r.source))
        && Recorded(env, history[..n], issued[..n], r.sequence))
  }

  lemma {:induction false} RecordedAt(env: Environment, history: seq<LogItem>, issued: seq<nat>, next: nat, i: nat)
    requires Recorded(env, history, issued, next) && i < |history|
    ensures issued[i] <= i && history[i].sequence < next
    ensures history[i].cursor == PrintCursor(issued[i], history[i].sequence, env.digest(history[i].subject, history[i].source))
  {
    var n := |history| - 1;
    if i < n { RecordedAt(env, history[..n], issued[..n], history[n].sequence, i); }
  }

  lemma {:induction false} RecordedRises(env: Environment, history: seq<LogItem>, issued: seq<nat>, next: nat, i: nat, j: nat)
    requires Recorded(env, history, issued, next) && i < j < |history|
    ensures history[i].sequence < history[j].sequence
  {
    var n := |history| - 1;
    if j < n {
      RecordedRises(env, history[..n], issued[..n], history[n].sequence, i, j);
    } else {
      RecordedAt(env, history[..n], issued[..n], history[n].sequence, i);
    }
  }

  predicate Overflows(rs: seq<LogItem>) {
    |rs| > MAX_BUFFER || TotalBytes(rs) > MAX_BUFFER_BYTES
  }

  /** The buffer holds the newest records, within both bounds; the generation counts the records
      that were evicted. */
  ghost predicate Consistent(env: Environment, log: LogState, history: seq<LogItem>, issued: seq<nat>) {
    && Recorded(env, history, issued, log.nextSequence)
    && log.generation <= |history| && (history != [] ==> log.generation < |history|)
    && log.records == history[log.generation..]
    && log.bytes == TotalBytes(log.records) && !Overflows(log.records)
  }

  /** What appending `item` does to a stream. An oversized record only uses up its sequence.
      Eviction drops the oldest records, and no more of them than the bounds require. */
  ghost predicate Appended(log: LogState, history: seq<LogItem>, issued: seq<nat>, item: LogItem, r: Result<string, LogError>,
                           log': LogState, history': seq<LogItem>, issued': seq<nat>) {
    if RecordBytes(item) > MAX_BUFFER_BYTES then
      && r == Err(Invalid(Message)) && log' == log.(nextSequence := log.nextSequence + 1)
      && history' == history && issued' == issued
    else
      && r == Ok(item.cursor) && log'.nextSequence == log.nextSequence + 1
      && history' == history + [item] && issued' == issued + [log.generation]
      && log.generation <= log'.generation <= |history'|
      && (log'.generation > log.generation ==> Overflows(history'[log'.generation - 1..]))
  }

  /** The record is the next one of this stream, under a cursor of its own. */
  ghost predicate IsNext(env: Environment, log: LogState, item: LogItem) {
    && item.sequence == log.nextSequence
    && item.cursor == PrintCursor(log.generation, log.nextSequence, env.digest(item.subject, item.source))
  }

  lemma SkipKeepsConsistent(env: Environment, log: LogState, history: seq<LogItem>, issued: seq<nat>)
    requires Consistent(env, log, history, issued)
    ensures Consistent(env, log.(nextSequence := log.nextSequence + 1), history, issued)
  {
  }

  lemma RecordedExtends(env: Environment, log: LogState, history: seq<LogItem>, issued: seq<nat>, item: LogItem)
    requires Recorded(env, history, issued, log.nextSequence) && log.generation <= |history| && IsNext(env, log, item)
    ensures Recorded(env, history + [item], issued + [log.generation], log.nextSequence + 1)
  {
    assert (history + [item])[..|history|] == history && (issued + [log.generation])[..|history|] == issued;
  }

  lemma SuffixExtends(history: seq<LogItem>, item: LogItem, evicted: nat, dropped: nat)
    requires evicted + dropped <= |history|
    ensures (history[evicted..] + [item])[dropped..] == (history + [item])[evicted + dropped..]
    ensures dropped > 0 ==> (history[evicted..] + [item])[dropped - 1..] == (history + [item])[evicted + dropped - 1..]
  {
  }

  lemma PushKeepsConsistent(env: Environment, log: LogState, history: seq<LogItem>, issued: seq<nat>, item: LogItem,
                            dropped: nat, after: LogState)
    requires Consistent(env, log, history, issued) && IsNext(env, log, item) && RecordBytes(item) <= MAX_BUFFER_BYTES
    requires dropped <= |log.records| && after.records == (log.records + [item])[dropped..]
    requires after.generation == log.generation + dropped && after.nextSequence == log.nextSequence + 1
    requires after.bytes == TotalBytes(after.records) && !Overflows(after.records)
    requires dropped > 0 ==> Overflows((log.records + [item])[dropped - 1..])
    ensures Consistent(env, after, history + [item], issued + [log.generation])
    ensures Appended(log, history, issued, item, Ok(item.cursor), after, history + [item], issued + [log.generation])
  {
    RecordedExtends(env, log, history, issued, item);
    SuffixExtends(history, item, log.generation, dropped);
  }

  // ---- Reading ---------------------------------------------------------------------------

  predicate RefusedRequest(req: LogRequest) {
    || !ValidIdentity(req.subject) || (req.source.Some? && !ValidIdentity(req.source.value))
    || req.limit == 0 || req.limit > MAX_BUFFER
  }

  /** The sequence a read resumes after, or why it cannot. */
  function ResumePoint(env: Environment, log: LogState, req: LogRequest): Result<Option<nat>, LogError> {
    if req.cursor.None? then Ok(None)
    else
      match ParseCursor(req.cursor.value, env.digest(req.subject, if req.source.Some? then req.source.value else ""))
      case None => Err(Invalid(Cursor))
      case Some((generation, sequence)) =>
        if sequence >= log.nextSequence then Err(Invalid(Cursor))
        else if generation != log.generation && log.records != [] && sequence < log.records[0].sequence then
          Err(CursorExpired)
        else Ok(Some(sequence))
  }

  /** Where a read starts, after every check of the request. */
  function Resume(env: Environment, supported: bool, log: LogState, req: LogRequest): (r: Result<Option<nat>, LogError>)
    ensures r.Ok? ==> req.limit > 0
  {
    if !supported then Err(Unsupported)
    else if RefusedRequest(req) then Err(Invalid(SubjectAndLimit))
    else ResumePoint(env, log, req)
  }

  function Wanted(req: LogRequest, after: Option<nat>): LogItem -> bool {
    (r: LogItem) => r.subject == req.subject && (req.source.Some? ==> r.source == req.source.value)
                    && (after.Some? ==> r.sequence > after.value)
  }

  /** A read shows the oldest wanted records, as many as the limit and the byte budget allow, and
      at least one if there is one. */
  predicate IsBoundedPrefix(result: seq<LogItem>, wanted: seq<LogItem>, limit: nat) {
    && result <= wanted && |result| <= limit
    && (wanted != [] && limit > 0 ==> result != [])
    && (|result| > 1 ==> TotalBytes(result) <= MAX_BUFFER_BYTES)
    && (|result| < |wanted| && |result| < limit ==>
          TotalBytes(result) + RecordBytes(wanted[|result|]) > MAX_BUFFER_BYTES)
  }

  /** Resuming from any cursor the stream has issued either shows, from the very next record on,
      all later records of that stream without a gap, or conflicts; and it conflicts exactly when
      the cursor's own record has been evicted. */
  lemma ResumeNeverSkips(env: Environment, log: LogState, history: seq<LogItem>, issued: seq<nat>, i: nat, limit: nat)
    requires Consistent(env, log, history, issued) && ColonFree(env)
    requires i < |history| && history[i].sequence <= U64_MAX && issued[i] <= U64_MAX
    ensures var r := history[i]; var req := LogRequest(r.subject, Some(r.source), Some(r.cursor), limit);
      if i < log.generation then ResumePoint(env, log, req) == Err(CursorExpired)
      else
        && ResumePoint(env, log, req) == Ok(Some(r.sequence))
        && Filter(Wanted(req, Some(r.sequence)), log.records)
           == Filter(Wanted(req, None), history[i + 1..])
  {
    var r := history[i];
    var req := LogRequest(r.subject, Some(r.source), Some(r.cursor), limit);
    RecordedAt(env, history, issued, log.nextSequence, i);
    ParsePrintedCursor(issued[i], r.sequence, env.digest(r.subject, r.source));
    var first := log.generation;
    assert log.records[0] == history[first];
    if i < first {
      RecordedRises(env, history, issued, log.nextSequence, i, first);
    } else {
      var older, later := history[first..i + 1], history[i + 1..];
      assert log.records == older + later;
      var resumed := Wanted(req, Some(r.sequence));
      FilterOfAppend(resumed, older, later);
      forall k | first <= k < |history|
        ensures (k > i) == (history[k].sequence > r.sequence)
      {
        if k > i { RecordedRises(env, history, issued, log.nextSequence, i, k); }
        if k < i { RecordedRises(env, history, issued, log.nextSequence, k, i); }
      }
      FilterNone(resumed, older);
      FilterAgrees(resumed, Wanted(req, None), later);
    }
  }

  /** Push one record and evict from the front until both bounds hold. */
  method PushBounded(records: seq<LogItem>, bytes: nat, item: LogItem)
    returns (kept: seq<LogItem>, keptBytes: nat, dropped: nat)
    requires bytes == TotalBytes(records) && RecordBytes(item) <= MAX_BUFFER_BYTES
    ensures dropped <= |records| && kept == (records + [item])[dropped..]
    ensures keptBytes == TotalBytes(kept) && !Overflows(kept)
    ensures dropped > 0 ==> Overflows((records + [item])[dropped - 1..])
  {
    TotalBytesOfPush(records, item);
    ghost var pushed := records + [item];
    assert pushed[|records|..] == [item] && [item][1..] == [];
    kept, keptBytes, dropped := records + [item], bytes + RecordBytes(item), 0;
    while |kept| > MAX_BUFFER || keptBytes > MAX_BUFFER_BYTES
      invariant dropped <= |records| && kept == pushed[dropped..] && keptBytes == TotalBytes(kept)
      invariant dropped > 0 ==> Overflows(pushed[dropped - 1..])
      decreases |kept|
    {
      assert pushed[dropped..][1..] == pushed[dropped + 1..];
      keptBytes := keptBytes - RecordBytes(kept[0]);
      kept := kept[1..];
      dropped := dropped + 1;
    }
  }

  /** The records of a stream after `item`: an oversized one is not recorded. */
  ghost function HistoryAfter(history: seq<LogItem>, item: LogItem): seq<LogItem> {
    if RecordBytes(item) > MAX_BUFFER_BYTES then history else history + [item]
  }

  ghost function IssuedAfter(log: LogState, issued: seq<nat>, item: LogItem): seq<nat> {
    if RecordBytes(item) > MAX_BUFFER_BYTES then issued else issued + [log.generation]
  }

  /** The stream after one record, with the reply to its writer. */
  method PushRecord(env: Environment, log: LogState, ghost history: seq<LogItem>, ghost issued: seq<nat>, item: LogItem)
    returns (r: Result<string, LogError>, after: LogState)
    requires Consistent(env, log, history, issued) && IsNext(env, log, item)
    ensures Consistent(env, after, HistoryAfter(history, item), IssuedAfter(log, issued, item))
    ensures Appended(log, history, issued, item, r, after, HistoryAfter(history, item), IssuedAfter(log, issued, item))
  {
    if RecordBytes(item) > MAX_BUFFER_BYTES {
      SkipKeepsConsistent(env, log, history, issued);
      return Err(Invalid(Message)), log.(nextSequence := log.nextSequence + 1);
    }
    var kept, keptBytes, dropped := PushBounded(log.records, log.bytes, item);
    after := LogState(log.generation + dropped, log.nextSequence + 1, keptBytes, kept);
    PushKeepsConsistent(env, log, history, issued, item, dropped, after);
    r := Ok(item.cursor);
  }

  /** The reading loop: wanted records in order, until the limit or the byte budget is reached. */
  method TakeBounded(records: seq<LogItem>, req: LogRequest, after: Option<nat>) returns (result: seq<LogItem>)
    requires req.limit > 0
    ensures IsBoundedPrefix(result, Filter(Wanted(req, after), records), req.limit)
  {
    var keep := Wanted(req, after);
    result := [];
    var responseBytes := 0;
    for i := 0 to |records|
      invariant result == Filter(keep, records[..i]) && |result| < req.limit
      invariant responseBytes == TotalBytes(result)
      invariant |result| > 1 ==> responseBytes <= MAX_BUFFER_BYTES
    {
      var record := records[i];
      FilterStep(keep, records, i);
      FilterIsPrefix(keep, records, i + 1);
      if keep(record) {
        var size := RecordBytes(record);
        if result != [] && responseBytes + size > MAX_BUFFER_BYTES {
          return;
        }
        TotalBytesOfPush(result, record);
        responseBytes := responseBytes + size;
        result := result + [record];
        if |result| == req.limit {
          return;
        }
      }
    }
    assert records[..|records|] == records;
  }

  // ---- What admission and reading mean ---------------------------------------------------

  /** An identity is not blank, at most 512 long, and free of control characters. */
  lemma IdentityMeans(s: string)
    ensures ValidIdentity(s) <==>
      (exists c :: c in s && !IsSpace(c)) && |s| <= 512 && forall c :: c in s ==> 32 <= c as int < 127 || 159 < c as int
  {
    var left, right := TrimMeans(s);
    if Trim(s) != "" {
      assert Trim(s)[0] in s && !IsSpace(Trim(s)[0]);
    } else {
      assert forall c :: c in s ==> c in left || c in right;
    }
  }

  function Concat(texts: seq<string>): string {
    if texts == [] then "" else Concat(texts[..|texts| - 1]) + texts[|texts| - 1]
  }

  lemma {:induction false} SecretBytesOfPush(secrets: seq<string>, secret: string)
    ensures SecretBytes(secrets + [secret]) == SecretBytes(secrets) + |secret|
  {
    if secrets != [] {
      assert (secrets + [secret])[1..] == secrets[1..] + [secret];
      SecretBytesOfPush(secrets[1..], secret);
    }
  }

  /** Secrets are bounded by their total length. */
  lemma {:induction false} SecretBytesMeans(secrets: seq<string>)
    ensures SecretBytes(secrets) == |Concat(secrets)|
    decreases |secrets|
  {
    if secrets != [] {
      var n := |secrets| - 1;
      SecretBytesMeans(secrets[..n]);
      SecretBytesOfPush(secrets[..n], secrets[n]);
      assert secrets == secrets[..n] + [secrets[n]];
    }
  }

  /** A message is admitted exactly if it, its secrets and its masked form are within bounds and
      nothing leaks, and it is then the masked form that is stored. */
  lemma RedactMeans(env: Environment, message: string, secrets: seq<string>)
    ensures Redact(env, message, secrets).Ok? <==>
      && |message| <= 262_144 && |secrets| <= 64 && |Concat(secrets)| <= 16_384
      && |env.mask(message, secrets)| <= 262_144 && !env.leaks(env.mask(message, secrets), secrets)
    ensures Redact(env, message, secrets).Ok? ==> Redact(env, message, secrets).value == env.mask(message, secrets)
  {
    SecretBytesMeans(secrets);
  }

  /** A record enters the stream exactly if the service is supported, both identities are valid and
      hold no secret, and its message is admitted. */
  lemma AdmissionMeans(env: Environment, supported: bool, subject: string, source: string, message: string, secrets: seq<string>)
    ensures var admission := Admission(env, supported, subject, source, message, secrets);
      && (admission.Ok? <==>
            && supported && ValidIdentity(subject) && ValidIdentity(source) && Redact(env, message, secrets).Ok?
            && !env.leaks(subject, secrets) && !env.leaks(source, secrets))
      && (admission.Ok? ==> admission.value == env.mask(message, secrets))
  {
  }

  /** What is stored is the masked message under the next sequence of the stream. */
  lemma NewItemMeans(env: Environment, log: LogState, subject: string, source: string, message: string)
    ensures var item := NewItem(env, log, subject, source, message);
      && item.subject == subject && item.source == source && item.message == message && item.sequence == log.nextSequence
      && item.cursor == "v2:" + Print(log.generation) + ":" + Print(log.nextSequence) + ":" + env.digest(subject, source)
  {
  }

  /** The records a read chooses from are the retained ones of the asked subject, and of the asked
      source if it names one, after the sequence it resumes from. */
  lemma {:induction false} WantedMeans(req: LogRequest, after: Option<nat>, records: seq<LogItem>, r: LogItem)
    ensures r in Filter(Wanted(req, after), records) <==>
      && r in records && r.subject == req.subject && (req.source.Some? ==> r.source == req.source.value)
      && (after.Some? ==> r.sequence > after.value)
    decreases |records|
  {
    if records != [] {
      var n := |records| - 1;
      WantedMeans(req, after, records[..n], r);
      assert records == records[..n] + [records[n]];
    }
  }

  /** A text is a cursor of this stream only in its printed shape, with the stream's own fingerprint. */
  lemma CursorShape(raw: string, fingerprint: string)
    requires ParseCursor(raw, fingerprint).Some?
    ensures exists g, q ::
      && raw == "v2:" + (g + [':'] + (q + [':'] + fingerprint))
      && ParseU64(g) == Some(ParseCursor(raw, fingerprint).value.0) && ParseU64(q) == Some(ParseCursor(raw, fingerprint).value.1)
  {
    var parts := Split(raw[3..], ':');
    SplitMeans(raw[3..], ':');
    assert parts[1..][1..] == parts[2..] && parts[1..] == [parts[1], parts[2]];
    assert Join(parts, ':') == parts[0] + [':'] + Join(parts[1..], ':');
    assert Join(parts[1..], ':') == parts[1] + [':'] + Join(parts[2..], ':');
    assert raw == "v2:" + raw[3..];
  }

  /** A read is answered exactly if the service is supported, its identities are valid, its limit is
      from 1 to 16384, and its cursor, if it has one, is of this stream, behind its end and not
      expired; it then resumes at that cursor. */
  lemma ResumeMeans(env: Environment, supported: bool, log: LogState, req: LogRequest)
    ensures var resume := Resume(env, supported, log, req);
      var cursor := if req.cursor.None? then None
        else ParseCursor(req.cursor.value, env.digest(req.subject, if req.source.Some? then req.source.value else ""));
      && (resume.Ok? <==>
            && supported && ValidIdentity(req.subject) && (req.source.Some? ==> ValidIdentity(req.source.value))
            && 1 <= req.limit <= 16_384
            && (req.cursor.Some? ==>
                  && cursor.Some? && cursor.value.1 < log.nextSequence
                  && !(log.records != [] && cursor.value.1 < log.records[0].sequence && cursor.value.0 != log.generation)))
      && (resume.Ok? ==> resume.value == if req.cursor.None? then None else Some(cursor.value.1))
  {
  }

  /** The length of everything stored in the records, one text after another. */
  function StoredLength(rs: seq<LogItem>): nat {
    if rs == [] then 0
    else var r := rs[|rs| - 1]; StoredLength(rs[..|rs| - 1]) + |r.subject + r.source + r.cursor + r.message|
  }

  lemma {:induction false} StoredLengthIsTotal(rs: seq<LogItem>)
    ensures StoredLength(rs) == TotalBytes(rs)
    decreases |rs|
  {
    if rs != [] {
      var n := |rs| - 1;
      StoredLengthIsTotal(rs[..n]);
      TotalBytesOfPush(rs[..n], rs[n]);
      assert rs == rs[..n] + [rs[n]];
    }
  }

  /** A buffer is too large exactly if it has too many records or too much text. */
  lemma OverflowsMeans(rs: seq<LogItem>)
    ensures Overflows(rs) <==> |rs| > 16_384 || StoredLength(rs) > 16_777_216
  {
    StoredLengthIsTotal(rs);
  }

  /** Both bounds, in numbers, over the text that is stored. */
  lemma BoundsMean(env: Environment, log: LogState, history: seq<LogItem>, issued: seq<nat>)
    requires Consistent(env, log, history, issued)
    ensures |log.records| <= 16_384 && log.bytes <= 16_777_216
    ensures log.bytes == StoredLength(log.records)
  {
    StoredLengthIsTotal(log.records);
  }

  // ---- The service -----------------------------------------------------------------------

  class LogService {
    const env: Environment
    const supported: bool
    var state: LogState
    ghost var history: seq<LogItem>
    ghost var issued: seq<nat>

    ghost predicate Valid()
      reads this
    {
      Consistent(env, state, history, issued)
    }

    constructor (env: Environment, supported: bool)
      ensures Valid() && this.env == env && this.supported == supported && history == []
    {
      this.env, this.supported := env, supported;
      state, history, issued := LogState(0, 0, 0, []), [], [];
    }

    method Push(subject: string, source: string, message: string) returns (r: Result<string, LogError>)
      requires Valid()
      modifies this
      ensures Valid()
      ensures Appended(old(state), old(history), old(issued), NewItem(env, old(state), subject, source, message), r,
                       state, history, issued)
    {
      var item := NewItem(env, state, subject, source, message);
      ghost var was := state;
      r, state := PushRecord(env, state, history, issued, item);
      history, issued := HistoryAfter(history, item), IssuedAfter(was, issued, item);
    }

    /** Append one record after masking it; a refused record changes nothing. */
    method Append(subject: string, source: string, message: string, secrets: seq<string>)
      returns (r: Result<string, LogError>)
      requires Valid()
      modifies this
      ensures Valid()
      ensures var admission := Admission(env, supported, subject, source, message, secrets);
        if admission.Err? then
          r == Err(admission.error) && state == old(state) && history == old(history) && issued == old(issued)
        else
          Appended(old(state), old(history), old(issued), NewItem(env, old(state), subject, source, admission.value), r,
                   state, history, issued)
    {
      var admission := Admission(env, supported, subject, source, message, secrets);
      if admission.Err? {
        return Err(admission.error);
      }
      r := Push(subject, source, admission.value);
    }

    method ReadLogs(req: LogRequest) returns (r: Result<seq<LogItem>, LogError>)
      requires Valid()
      ensures var resume := Resume(env, supported, state, req);
        if resume.Err? then r == Err(resume.error)
        else r.Ok? && IsBoundedPrefix(r.value, Filter(Wanted(req, resume.value), state.records), req.limit)
    {
      var resume := Resume(env, supported, state, req);
      if resume.Err? {
        return Err(resume.error);
      }
      var result := TakeBounded(state.records, req, resume.value);
      r := Ok(result);
    }
  }
}
