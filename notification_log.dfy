/** The notification log: one entry per send attempt, kept in a file that
    every append reads whole, extends by one entry and rewrites. */
module NotificationLog {
  import opened Wrappers
  import opened Dates

  /** One attempt as the log records it: when, to whom, which kind of notice,
      over which channel, the text, the status and, for a failed attempt
      only, the error detail. */
  datatype LogEntry = LogEntry(
    timestamp: Instant,
    patient: string,
    phone: string,
    kind: string,
    channel: string,
    message: string,
    status: string,
    error: Option<string>)

  const SentStatus := "Enviado"
  const ErrorStatus := "Error"

  /** The entry for one attempt: status "Enviado" exactly when the send
      succeeded, and an error detail exactly when it failed. */
  function NewEntry(timestamp: Instant, patient: string, phone: string, kind: string,
                    channel: string, message: string, sent: bool, detail: string): (e: LogEntry)
    ensures e.status == SentStatus <==> sent
    ensures e.status == ErrorStatus <==> !sent
    ensures e.error.Some? <==> !sent
    ensures !sent ==> e.error == Some(detail)
    ensures e.patient == patient && e.phone == phone && e.kind == kind && e.message == message
  {
    LogEntry(timestamp, patient, phone, kind, channel, message,
             if sent then SentStatus else ErrorStatus,
             if sent then None else Some(detail))
  }

  /** The log file as reading it finds it: absent, not readable as JSON,
      JSON that is not a list, or a list of entries. */
  datatype LogFile = Missing | Unreadable | NotAList | Stored(entries: seq<LogEntry>)

  /** The entries an append starts from: a missing or unreadable file counts
      as an empty log. */
  function Recorded(f: LogFile): seq<LogEntry> {
    if f.Stored? then f.entries else []
  }

  /** The file after appending `es` one at a time, starting from `f`. A
      file holding JSON that is not a list refuses every append and stays as
      it was. */
  function Appended(f: LogFile, es: seq<LogEntry>): (r: LogFile)
    ensures es == [] || f.NotAList? ==> r == f
    ensures es != [] && !f.NotAList? ==> r == Stored(Recorded(f) + es)
  {
    if es == [] || f.NotAList? then f else Stored(Recorded(f) + es)
  }

  /** What reading the log finds after an append: the entries it held
      before (none when it was missing or unreadable) followed by the new
      ones in order. Only a file holding a non-list refuses them, and it
      still holds a non-list afterwards. */
  lemma AppendedReadsBack(f: LogFile, es: seq<LogEntry>)
    ensures !f.NotAList? ==> Recorded(Appended(f, es)) == Recorded(f) + es
    ensures Appended(f, es).NotAList? <==> f.NotAList?
    ensures Appended(f, es) == Missing || Appended(f, es) == Unreadable ==> es == []
  {
  }

  /** On a file that accepts appends, saving entries one at a time builds the
      same list as saving them together. */
  lemma AppendedSnoc(f: LogFile, es: seq<LogEntry>, e: LogEntry)
    requires !f.NotAList?
    ensures Appended(f, es + [e]) == Stored(Recorded(Appended(f, es)) + [e])
  {
    if es == [] {
      assert es + [e] == [e];
    } else {
      assert Recorded(f) + (es + [e]) == Recorded(f) + es + [e];
    }
  }

  /** How many entries record a successful send. */
  function CountSent(es: seq<LogEntry>): (n: nat)
    ensures n <= |es|
  {
    if es == [] then 0
    else CountSent(es[..|es| - 1]) + (if es[|es| - 1].status == SentStatus then 1 else 0)
  }

  /** The file the log lives in. */
  class LogStore {
    var file: LogFile

    constructor (initial: LogFile)
      ensures file == initial
    {
      file := initial;
    }

    /** Reads the whole log (a missing or unreadable file reads as empty),
        appends `entry` and writes the list back. A file holding JSON that is
        not a list cannot be appended to: the append raises and the file is
        left as it was. */
    method SaveLog(entry: LogEntry) returns (saved: bool)
      modifies this
      ensures saved <==> !old(file).NotAList?
      ensures saved ==> file == Stored(Recorded(old(file)) + [entry])
      ensures !saved ==> file == old(file)
      ensures file == Appended(old(file), [entry])
    {
      var logs: seq<LogEntry> := [];
      if file.Stored? {
        logs := file.entries;
      } else if file.NotAList? {
        return false;
      }
      logs := logs + [entry];
      file := Stored(logs);
      saved := true;
    }
  }
}
