/** The State object (include/state.h, src/state.cpp:94-257): fields assigned in place,
    printing to a stream and loading step by step. */
module StateObject {
  import opened Wrappers
  import opened Decimal
  import opened Json
  import opened Escaping
  import opened StateText
  import opened BundleModel
  import opened BundleObject

  /** An output stream: what has been written. */
  class Stream {
    var text: string

    constructor ()
      ensures text == ""
    {
      text := "";
    }

    method Put(s: string)
      modifies this
      ensures text == old(text) + s
    {
      text := text + s;
    }
  }

  class State {
    var containerId: string
    var bundlePath: string
    var createdTimestamp: string
    var startedTimestamp: string
    var finishedTimestamp: string
    const config: Bundle
    var status: Status
    var exitCode: Int32
    var pid: Int32
    var systemdCgroup: bool

    constructor (containerId: string, bundlePath: string)
      ensures View() == Fresh.(id := containerId, bundle := bundlePath)
      ensures this.containerId == containerId && this.bundlePath == bundlePath
      ensures createdTimestamp == "" && startedTimestamp == "" && finishedTimestamp == ""
      ensures status == Unknown && exitCode == 0 && pid == -1 && !systemdCgroup
      ensures fresh(config) && config.View() == NewConfig
    {
      this.containerId, this.bundlePath := containerId, bundlePath;
      createdTimestamp, startedTimestamp, finishedTimestamp := "", "", "";
      config := new Bundle();
      status, exitCode, pid, systemdCgroup := Unknown, 0, -1, false;
    }

    function View(): View
      reads this
    {
      StateText.View(containerId, bundlePath, systemdCgroup, status, pid, createdTimestamp, startedTimestamp, finishedTimestamp,
                     exitCode)
    }

    // ---- setters; the clock and the process id come from outside ----

    method SetSystemdCgroup(value: bool)
      modifies this`systemdCgroup
      ensures View() == old(View()).(cgroup := value)
      ensures systemdCgroup == value
    {
      systemdCgroup := value;
    }

    method SetCreating()
      modifies this`status
      ensures View() == MarkCreating(old(View()))
      ensures status == Creating
    {
      status := Creating;
    }

    method SetCreated(now: Timestamp, self: Int32)
      modifies this`status, this`createdTimestamp, this`pid
      ensures View() == MarkCreated(old(View()), now, self)
      ensures status == Created && createdTimestamp == now && pid == self
    {
      status := Created;
      createdTimestamp := now;
      pid := self;
    }

    method SetRunning(now: Timestamp)
      modifies this`status, this`startedTimestamp
      ensures View() == MarkRunning(old(View()), now)
      ensures status == Running && startedTimestamp == now
    {
      status := Running;
      startedTimestamp := now;
    }

    method SetStopped(code: Int32, now: Timestamp)
      modifies this`status, this`exitCode, this`finishedTimestamp
      ensures View() == MarkStopped(old(View()), now, code)
      ensures status == Stopped && exitCode == code && finishedTimestamp == now
    {
      status := Stopped;
      exitCode := code;
      finishedTimestamp := now;
    }

    // ---- printing ----

    method PrintHead(stream: Stream)
      modifies stream
      ensures stream.text == old(stream.text) + HeadText(View())
    {
      ghost var start := stream.text;
      var id := JsonEscape(containerId);
      var bundle := JsonEscape(bundlePath);
      KeyLiterals();
      LastKeyLiterals();
      stream.Put("{\"ociVersion\":\"");
      stream.Put("1.0.2");
      stream.Put("\",\"id\":\"");
      stream.Put(id);
      stream.Put("\",\"status\":\"");
      stream.Put(StatusName(status));
      stream.Put("\",\"bundle\":\"");
      stream.Put(bundle);
      stream.Put("\",\"systemd-cgroup\":");
      stream.Put(if systemdCgroup then "true" else "false");
      TenPieces(start, "{\"ociVersion\":\"", "1.0.2", NextKey("id"), id, NextKey("status"), StatusName(status), NextKey("bundle"),
                bundle, "\"" + "," + KeyText("systemd-cgroup"), if systemdCgroup then "true" else "false");
    }

    method PrintOptional(stream: Stream)
      modifies stream
      ensures stream.text == old(stream.text) + PidText(View()) + CreatedText(View()) + StartedText(View()) + StoppedText(View())
    {
      var start := stream.text;
      if status == Created || status == Running {
        stream.Put(",\"pid\":");
        stream.Put(IntText(pid));
        Assoc(start, ",\"pid\":", IntText(pid));
      }
      var next := stream.text;
      assert next == start + PidText(View());
      if status == Created || status == Running || status == Stopped {
        PutQuoted(stream, ",\"created\":\"", createdTimestamp);
      }
      if status == Running || status == Stopped {
        PutQuoted(stream, ",\"started\":\"", startedTimestamp);
      }
      if status == Stopped {
        next := stream.text;
        stream.Put(",\"exitCode\":");
        stream.Put(IntText(exitCode));
        Assoc(next, ",\"exitCode\":", IntText(exitCode));
        PutQuoted(stream, ",\"finished\":\"", finishedTimestamp);
        FivePieces(next, ",\"exitCode\":", IntText(exitCode), ",\"finished\":\"", finishedTimestamp);
      }
    }

    /** Appends exactly the text of the current state and changes nothing else. */
    method Print(stream: Stream)
      modifies stream
      ensures stream.text == old(stream.text) + PrintText(View())
    {
      ghost var start, v := stream.text, View();
      PrintHead(stream);
      PrintOptional(stream);
      stream.Put("}\n");
      SixPieces(start, HeadText(v), PidText(v), CreatedText(v), StartedText(v), StoppedText(v), "}\n");
    }

    // ---- loading ----

    method LoadDetails(doc: Value) returns (ok: bool)
      modifies this`pid, this`createdTimestamp, this`startedTimestamp, this`exitCode, this`finishedTimestamp
      ensures Loaded(ok, View()) == LoadPid(old(View()), doc)
    {
      if status == Created || status == Running {
        var integer := IntField(doc, "pid");
        if integer.None? { return false; }
        pid := Narrow(integer.value);
      }
      if status == Created || status == Running || status == Stopped {
        var created := StringField(doc, "created");
        if created.None? { return false; }
        createdTimestamp := created.value;
      }
      if status == Running || status == Stopped {
        var started := StringField(doc, "started");
        if started.None? { return false; }
        startedTimestamp := started.value;
      }
      if status == Stopped {
        var integer := IntField(doc, "exitCode");
        if integer.None? { return false; }
        exitCode := Narrow(integer.value);
        var finished := StringField(doc, "finished");
        if finished.None? { return false; }
        finishedTimestamp := finished.value;
      }
      return true;
    }

    method LoadFields(doc: Value) returns (ok: bool)
      modifies this
      ensures Loaded(ok, View()) == LoadDocument(old(View()), doc)
    {
      var ociVersion := StringField(doc, "ociVersion");
      if ociVersion.None? { return false; }
      if ociVersion.value != "1.0.2" { return false; }

      var statusString := StringField(doc, "status");
      if statusString.None? { return false; }
      status := ParseStatus(statusString.value);
      if status == Unknown { return false; }

      var text := StringField(doc, "id");
      if text.None? { return false; }
      containerId := text.value;

      text := StringField(doc, "bundle");
      if text.None? { return false; }
      bundlePath := text.value;

      var flag := Field(doc, "systemd-cgroup");
      if flag.None? || !flag.value.Bool? { return false; }
      systemdCgroup := flag.value.flag;

      ok := LoadDetails(doc);
    }

    /** Reads the configuration the bundle path names. */
    method LoadBundle(files: map<(string, string), string>, configFileName: string) returns (ok: bool)
      modifies config
      ensures BundleLoaded(files, bundlePath, configFileName, old(config.View()), ok, config.View())
    {
      var name := (bundlePath, configFileName);
      ok := config.Load(if name in files then ReadText(files[name]) else None);
    }

    /** Fields assigned before a failure stay assigned; the configuration is only read once
        every field of the state has been. */
    method Load(text: Option<string>, files: map<(string, string), string>, configFileName: string) returns (ok: bool)
      modifies this, config
      ensures var l := if text.None? then Loaded(false, old(View())) else LoadText(old(View()), text.value);
              && View() == l.view
              && (!l.ok ==> !ok && config.View() == old(config.View()))
              && (l.ok ==> BundleLoaded(files, bundlePath, configFileName, old(config.View()), ok, config.View()))
    {
      var document := if text.None? then None else ReadText(text.value);
      if document.None? { return false; }
      ok := LoadFields(document.value);
      if !ok { return false; }
      ok := LoadBundle(files, configFileName);
    }
  }

  /** What reading a bundle's configuration file does. */
  predicate BundleLoaded(files: map<(string, string), string>, bundle: string, name: string, before: Config, ok: bool, after: Config) {
    var document := if (bundle, name) in files then ReadText(files[(bundle, name)]) else None;
    if document.None? then !ok && after == before else Out(ok, after) == LoadConfig(document.value, before)
  }

  method PutQuoted(stream: Stream, key: string, value: string)
    modifies stream
    ensures stream.text == old(stream.text) + (key + value + "\"")
  {
    ghost var start := stream.text;
    stream.Put(key);
    stream.Put(value);
    stream.Put("\"");
    Assoc(start, key, value);
    Assoc(start, key + value, "\"");
  }

  lemma KeyLiterals()
    ensures NextKey("id") == "\",\"id\":\"" && NextKey("status") == "\",\"status\":\""
  {
  }

  lemma LastKeyLiterals()
    ensures NextKey("bundle") == "\",\"bundle\":\"" && "\"" + "," + KeyText("systemd-cgroup") == "\",\"systemd-cgroup\":"
  {
  }

  lemma FivePieces(x: string, a: string, b: string, c: string, d: string)
    ensures x + (a + b) + (c + d + "\"") == x + (a + b + c + d + "\"")
  {
  }

  lemma SixPieces(x: string, a: string, b: string, c: string, d: string, e: string, f: string)
    ensures x + a + b + c + d + e + f == x + (a + b + c + d + e + f)
  {
    Assoc(x, a, b);
    Assoc(x, a + b, c);
    Assoc(x, a + b + c, d);
    Assoc(x, a + b + c + d, e);
    Assoc(x, a + b + c + d + e, f);
  }

  lemma TenPieces(x: string, a: string, b: string, c: string, d: string, e: string, f: string, g: string, h: string, i: string, j: string)
    ensures x + a + b + c + d + e + f + g + h + i + j == x + (a + b + c + d + e + f + g + h + i + j)
  {
    SixPieces(x, a, b, c, d, e, f);
    SixPieces(x, a + b + c + d + e + f, g, h, i, j, "");
    assert x + (a + b + c + d + e + f) + g + h + i + j + "" == x + (a + b + c + d + e + f) + g + h + i + j;
    assert (a + b + c + d + e + f) + g + h + i + j + "" == (a + b + c + d + e + f) + g + h + i + j;
  }
}
