/**
 * The image report sender (`main` of the WhatsApp script): after the
 * readiness gate, every `Relatorio_*.png` of the output directory is sent in
 * sorted order unless its `<name>.sent` marker exists; a marker is created
 * after each accepted send, and the script exits with status 1 when any
 * attempted send failed.
 *
 * The directory is the list of its file names (a missing directory lists
 * like an empty one: both reach the "nothing to send" branch); the backend's
 * answer to each file is given by a function of the file name.
 */
module ImageSender {
  import opened Base
  import opened Strings
  import opened Sorting
  import opened Waha

  const ReportPrefix: string := "Relatorio_"
  const ReportSuffix: string := ".png"
  /** `SENT_MARKER`. */
  const SentSuffix: string := ".sent"

  /** `f.startswith("Relatorio_") and f.endswith(".png")`. */
  predicate IsReport(name: string)
  {
    StartsWith(name, ReportPrefix) && EndsWith(name, ReportSuffix)
  }

  /** The list comprehension selecting the report images of the listing. */
  function Reports(listing: seq<string>): (r: seq<string>)
    ensures forall n :: n in r <==> n in listing && IsReport(n)
  {
    if listing == [] then []
    else (if IsReport(listing[0]) then [listing[0]] else []) + Reports(listing[1..])
  }

  function Identity(s: string): string
  {
    s
  }

  /** `sorted(reports_to_send)`: the names the loop goes through. */
  function Queue(listing: seq<string>): seq<string>
  {
    SortBy(Reports(listing), Identity)
  }

  /**
   * Exactly the report images of the directory are queued, each as often as
   * it is listed, in ascending order of name.
   */
  lemma QueueSpec(listing: seq<string>)
    ensures var q := Queue(listing);
      && (forall n :: n in q <==> n in listing && IsReport(n))
      && multiset(q) == multiset(Reports(listing))
      && forall i, j :: 0 <= i < j < |q| ==> Le(q[i], q[j])
  {
    var q := Queue(listing);
    assert forall n :: n in q <==> n in multiset(q);
    assert forall i, j :: 0 <= i < j < |q| ==> Le(Identity(q[i]), Identity(q[j]));
  }

  /** The name of the marker file of a report: `<name>.sent`. */
  function Marker(name: string): string
  {
    name + SentSuffix
  }

  /** A marker file is never itself a report image. */
  lemma MarkerIsNotReport(name: string)
    ensures !IsReport(Marker(name))
  {
    var m := Marker(name);
    assert m[|m| - 1] == 't';
  }

  /** The last `sep`-piece of a name, `ext` removed, `-` turned into `/`. */
  function DatePart(filename: string, sep: char, ext: string): string
    requires ext != []
  {
    var pieces := Split(filename, sep);
    ReplaceChar(RemoveAll(pieces[|pieces| - 1], ext), '-', '/')
  }

  /** `filename.split('_')[-1].replace('.png', '').replace('-', '/')`. */
  function ReportDate(filename: string): string
  {
    DatePart(filename, '_', ReportSuffix)
  }

  /** `f"{CAPTION} ({data_relatorio})"`. */
  function Caption(base: string, filename: string): string
  {
    base + " (" + ReportDate(filename) + ")"
  }

  /**
   * The date part of `<a><sep><d><ext>` is `d` with dashes shown as slashes,
   * when neither `d` nor `ext` holds the separator and `d` cannot start `ext`.
   */
  lemma DatePartOf(a: string, sep: char, d: string, ext: string)
    requires ext != [] && sep !in d && sep !in ext && ext[0] !in d
    ensures DatePart(a + [sep] + (d + ext), sep, ext) == ReplaceChar(d, '-', '/')
  {
    var tail := d + ext;
    var name := a + [sep] + tail;
    SplitLast(a, sep, tail);
    var pieces := Split(name, sep);
    var last := pieces[|pieces| - 1];
    assert last == tail;
    RemoveAllTrailing(d, ext);
    assert RemoveAll(last, ext) == d;
  }

  /** For a name `Relatorio_<d>.png` the caption ends with `(<d>)`, dashes shown as slashes. */
  lemma CaptionOfReport(base: string, d: string)
    requires '_' !in d && '.' !in d
    ensures Caption(base, ReportPrefix + d + ReportSuffix) == base + " (" + ReplaceChar(d, '-', '/') + ")"
  {
    var a := "Relatorio";
    var ext := ReportSuffix;
    assert ReportPrefix + d + ext == a + ['_'] + (d + ext);
    assert '_' !in ext && ext[0] == '.';
    DatePartOf(a, '_', d, ext);
  }

  /** What happened to one `enviar_imagem_whatsapp` call once its configuration check passed. */
  datatype ImageAttempt =
    | Opened(reply: Reply)   // the file opened and the POST returned this
    | FileMissing            // `FileNotFoundError` on `open`

  /** `enviar_imagem_whatsapp` returns True only for a configured, opened, accepted (200/201) upload. */
  function ImageSent(c: Config, a: ImageAttempt): (ok: bool)
    ensures ok <==> CanSend(c) && (a == Opened(Status(200)) || a == Opened(Status(201)))
  {
    a.Opened? && Accepted(c, a.reply)
  }

  /**
   * `enviar_imagem_whatsapp(filepath)`: the configuration check, then the
   * caption, then the upload. Returns whether it succeeded and the caption
   * it sent with (none when the configuration check stopped it).
   */
  method SendImage(c: Config, base: string, filename: string, a: ImageAttempt) returns (ok: bool, caption: Option<string>)
    ensures ok == ImageSent(c, a)
    ensures caption == if CanSend(c) then Some(Caption(base, filename)) else None
  {
    if !(Truthy(c.groupId) && Truthy(c.apiKey) && Truthy(c.endpoint)) {
      return false, None;
    }
    var pieces := Split(filename, '_');
    var dataRelatorio := ReplaceChar(RemoveAll(pieces[|pieces| - 1], ReportSuffix), '-', '/');
    caption := Some(base + " (" + dataRelatorio + ")");
    match a
    case FileMissing =>
      ok := false;
    case Opened(reply) =>
      ok := reply.Status? && reply.code in {200, 201};
  }

  /** The directory after the loop, the names it tried to send, and `sucesso_total`. */
  datatype Pass = Pass(files: seq<string>, attempted: seq<string>, allOk: bool)

  /** The send loop over `names`, as a function of the directory it starts from. */
  function SendAll(names: seq<string>, files: seq<string>, c: Config, attempt: string -> ImageAttempt): Pass
  {
    if names == [] then Pass(files, [], true)
    else
      var n := names[0];
      if Marker(n) in files then SendAll(names[1..], files, c, attempt)
      else
        var ok := ImageSent(c, attempt(n));
        var rest := SendAll(names[1..], if ok then files + [Marker(n)] else files, c, attempt);
        Pass(rest.files, [n] + rest.attempted, ok && rest.allOk)
  }

  /**
   * The whole `main`: exit status and the state it leaves. The gate failing
   * exits 1 before the directory is read; no report to send exits 0.
   */
  function SenderMain(c: Config, base: string, probes: nat -> Probe, latency: nat -> nat,
                      files: seq<string>, attempt: string -> ImageAttempt): (int, Pass)
  {
    if !AwaitReady(probes, latency, DefaultTimeout).ready then (1, Pass(files, [], true))
    else
      var q := Queue(files);
      if q == [] then (0, Pass(files, [], true))
      else
        var r := SendAll(q, files, c, attempt);
        (if r.allOk then 0 else 1, r)
  }

  /** The output directory, as the names `os.listdir` would return. */
  class OutputDir {
    var files: seq<string>

    constructor (listing: seq<string>)
      ensures files == listing
    {
      files := listing;
    }

    /** `os.path.exists`. */
    predicate Exists(name: string)
      reads this
    {
      name in files
    }

    /** `open(path, 'w')` on a name that does not exist yet. */
    method Create(name: string)
      modifies this
      ensures files == old(files) + [name]
    {
      files := files + [name];
    }
  }

  /** The run `r` preceded by the names already attempted and the flag so far. */
  function After(attempted: seq<string>, allOk: bool, r: Pass): Pass
  {
    Pass(r.files, attempted + r.attempted, allOk && r.allOk)
  }

  /** One step of `SendAll`, from position `i`. */
  lemma SendStep(names: seq<string>, i: nat, files: seq<string>, c: Config, attempt: string -> ImageAttempt)
    requires i < |names|
    ensures var n := names[i];
      var ok := ImageSent(c, attempt(n));
      forall done: seq<string>, flag: bool ::
        After(done, flag, SendAll(names[i..], files, c, attempt)) ==
          if Marker(n) in files then After(done, flag, SendAll(names[i + 1..], files, c, attempt))
          else After(done + [n], flag && ok, SendAll(names[i + 1..], if ok then files + [Marker(n)] else files, c, attempt))
  {
    assert names[i..][1..] == names[i + 1..];
  }

  /** The loop over the sorted report names. */
  method SendQueue(dir: OutputDir, names: seq<string>, c: Config, base: string, attempt: string -> ImageAttempt)
    returns (attempted: seq<string>, sucessoTotal: bool)
    modifies dir
    ensures Pass(dir.files, attempted, sucessoTotal) == SendAll(names, old(dir.files), c, attempt)
  {
    attempted, sucessoTotal := [], true;
    var i := 0;
    while i < |names|
      invariant 0 <= i <= |names|
      invariant SendAll(names, old(dir.files), c, attempt) == After(attempted, sucessoTotal, SendAll(names[i..], dir.files, c, attempt))
    {
      var filename := names[i];
      SendStep(names, i, dir.files, c, attempt);
      if !dir.Exists(Marker(filename)) {
        var success, _ := SendImage(c, base, filename, attempt(filename));
        attempted := attempted + [filename];
        if success {
          dir.Create(Marker(filename));
        } else {
          sucessoTotal := false;
        }
      }
      i := i + 1;
    }
    assert names[i..] == [];
  }

  /** `main` of the WhatsApp script. */
  method SendReports(dir: OutputDir, c: Config, base: string, probes: nat -> Probe, latency: nat -> nat,
                     attempt: string -> ImageAttempt) returns (exit: int, attempted: seq<string>)
    modifies dir
    ensures var (e, r) := SenderMain(c, base, probes, latency, old(dir.files), attempt);
      exit == e && attempted == r.attempted && dir.files == r.files
  {
    var ready, _ := WaitForSessionReady(probes, latency, DefaultTimeout);
    if !ready {
      return 1, [];
    }
    var reportsToSend := Queue(dir.files);
    if reportsToSend == [] {
      return 0, [];
    }
    var sucessoTotal;
    attempted, sucessoTotal := SendQueue(dir, reportsToSend, c, base, attempt);
    exit := if sucessoTotal then 0 else 1;
  }

  /** Two reports never share a marker. */
  lemma MarkerInjective(m: string, n: string)
    ensures Marker(m) == Marker(n) <==> m == n
  {
    if Marker(m) == Marker(n) {
      assert |m| == |n|;
      assert Marker(m)[..|m|] == m;
      assert Marker(n)[..|n|] == n;
    }
  }

  /** Only listed names whose marker did not exist are attempted. */
  lemma {:induction false} SendSkipsMarked(names: seq<string>, files: seq<string>, c: Config, attempt: string -> ImageAttempt)
    ensures forall n :: n in SendAll(names, files, c, attempt).attempted ==> n in names && Marker(n) !in files
  {
    if names != [] {
      var n := names[0];
      if Marker(n) in files {
        SendSkipsMarked(names[1..], files, c, attempt);
      } else {
        var ok := ImageSent(c, attempt(n));
        SendSkipsMarked(names[1..], if ok then files + [Marker(n)] else files, c, attempt);
      }
    }
  }

  /**
   * Files are only added; a marker exists afterwards exactly when it existed
   * before or its report was attempted and accepted; every new file is such a
   * marker.
   */
  lemma {:induction false} SendMarkers(names: seq<string>, files: seq<string>, c: Config, attempt: string -> ImageAttempt)
    ensures var r := SendAll(names, files, c, attempt);
      && (forall f :: f in files ==> f in r.files)
      && (forall n :: Marker(n) in r.files <==> Marker(n) in files || (n in r.attempted && ImageSent(c, attempt(n))))
      && (forall f :: f in r.files && f !in files ==> exists n :: n in r.attempted && f == Marker(n))
  {
    if names != [] {
      var n := names[0];
      var ok := ImageSent(c, attempt(n));
      if Marker(n) in files {
        SendMarkers(names[1..], files, c, attempt);
      } else {
        var next := if ok then files + [Marker(n)] else files;
        SendMarkers(names[1..], next, c, attempt);
        forall m
          ensures Marker(m) in next <==> Marker(m) in files || (m == n && ok)
        {
          MarkerInjective(m, n);
        }
      }
    }
  }

  /** `sucesso_total` holds exactly when every attempted send was accepted. */
  lemma {:induction false} SendAllOk(names: seq<string>, files: seq<string>, c: Config, attempt: string -> ImageAttempt)
    ensures var r := SendAll(names, files, c, attempt);
      r.allOk <==> forall n :: n in r.attempted ==> ImageSent(c, attempt(n))
  {
    if names != [] {
      var n := names[0];
      if Marker(n) in files {
        SendAllOk(names[1..], files, c, attempt);
      } else {
        var ok := ImageSent(c, attempt(n));
        SendAllOk(names[1..], if ok then files + [Marker(n)] else files, c, attempt);
      }
    }
  }

  /** Every queued name is either already marked or attempted. */
  lemma {:induction false} SendCovers(names: seq<string>, files: seq<string>, c: Config, attempt: string -> ImageAttempt)
    ensures forall n :: n in names ==> Marker(n) in files || n in SendAll(names, files, c, attempt).attempted
  {
    if names != [] {
      var n := names[0];
      var ok := ImageSent(c, attempt(n));
      if Marker(n) in files {
        SendCovers(names[1..], files, c, attempt);
      } else {
        var next := if ok then files + [Marker(n)] else files;
        SendCovers(names[1..], next, c, attempt);
        forall m | m in names[1..] && Marker(m) in next
          ensures Marker(m) in files || m in SendAll(names, files, c, attempt).attempted
        {
          MarkerInjective(m, n);
        }
      }
    }
  }

  /** With every name marked, the loop sends nothing and changes nothing. */
  lemma {:induction false} SendQuiet(names: seq<string>, files: seq<string>, c: Config, attempt: string -> ImageAttempt)
    requires forall n :: n in names ==> Marker(n) in files
    ensures SendAll(names, files, c, attempt) == Pass(files, [], true)
  {
    if names != [] {
      SendQuiet(names[1..], files, c, attempt);
    }
  }

  /** Names in ascending order. */
  predicate Ascending(names: seq<string>)
  {
    forall i, j :: 0 <= i < j < |names| ==> Le(names[i], names[j])
  }

  /** Sending a sorted queue attempts the names in ascending order. */
  lemma {:induction false} SendInOrder(names: seq<string>, files: seq<string>, c: Config, attempt: string -> ImageAttempt)
    requires Ascending(names)
    ensures Ascending(SendAll(names, files, c, attempt).attempted)
  {
    if names != [] {
      var n := names[0];
      var ok := ImageSent(c, attempt(n));
      var next := if Marker(n) in files || !ok then files else files + [Marker(n)];
      var tail := names[1..];
      assert Ascending(tail) by {
        forall i, j | 0 <= i < j < |tail|
          ensures Le(tail[i], tail[j])
        {
          assert tail[i] == names[i + 1] && tail[j] == names[j + 1];
        }
      }
      SendInOrder(tail, next, c, attempt);
      SendSkipsMarked(tail, next, c, attempt);
      var rest := SendAll(tail, next, c, attempt).attempted;
      if Marker(n) !in files {
        var a := [n] + rest;
        assert SendAll(names, files, c, attempt).attempted == a;
        forall i, j | 0 <= i < j < |a|
          ensures Le(a[i], a[j])
        {
          if i == 0 {
            assert a[j] in tail;
            var k :| 0 <= k < |tail| && tail[k] == a[j];
            assert names[k + 1] == a[j];
            assert Le(names[0], names[k + 1]);
            assert a[i] == names[0];
          } else {
            assert a[i] == rest[i - 1] && a[j] == rest[j - 1];
          }
        }
      }
    }
  }

  /** The script exits 1 exactly when the gate failed or some attempted send failed. */
  lemma SenderExit(c: Config, base: string, probes: nat -> Probe, latency: nat -> nat,
                   files: seq<string>, attempt: string -> ImageAttempt)
    ensures var (e, r) := SenderMain(c, base, probes, latency, files, attempt);
      && (e == 0 || e == 1)
      && (e == 1 <==> !AwaitReady(probes, latency, DefaultTimeout).ready ||
                      exists n :: n in r.attempted && !ImageSent(c, attempt(n)))
  {
    var q := Queue(files);
    SendAllOk(q, files, c, attempt);
  }

  /**
   * After a run that exits 0, a second run over the directory it left sends
   * nothing, whatever the backend would answer: every report is marked.
   */
  lemma SenderIdempotent(c: Config, base: string, probes: nat -> Probe, latency: nat -> nat,
                         files: seq<string>, attempt: string -> ImageAttempt,
                         probes': nat -> Probe, latency': nat -> nat, attempt': string -> ImageAttempt)
    requires SenderMain(c, base, probes, latency, files, attempt).0 == 0
    ensures var after := SenderMain(c, base, probes, latency, files, attempt).1.files;
      SenderMain(c, base, probes', latency', after, attempt').1 == Pass(after, [], true)
  {
    var q := Queue(files);
    var r := SendAll(q, files, c, attempt);
    var after := SenderMain(c, base, probes, latency, files, attempt).1.files;
    if q != [] {
      assert after == r.files && r.allOk;
      QueueSpec(files);
      QueueSpec(after);
      SendMarkers(q, files, c, attempt);
      SendAllOk(q, files, c, attempt);
      SendCovers(q, files, c, attempt);
      forall n | n in Queue(after)
        ensures Marker(n) in after
      {
        if n !in files {
          var m :| m in r.attempted && n == Marker(m);
          MarkerIsNotReport(m);
        }
      }
      SendQuiet(Queue(after), after, c, attempt');
    } else {
      QueueSpec(files);
      assert after == files;
      QueueSpec(after);
    }
  }

  /** The names the script attempts come in ascending order and are unmarked reports of the directory. */
  lemma SenderInOrder(c: Config, base: string, probes: nat -> Probe, latency: nat -> nat,
                      files: seq<string>, attempt: string -> ImageAttempt)
    ensures var a := SenderMain(c, base, probes, latency, files, attempt).1.attempted;
      && Ascending(a)
      && (forall n :: n in a ==> n in files && IsReport(n) && Marker(n) !in files)
  {
    var q := Queue(files);
    QueueSpec(files);
    if AwaitReady(probes, latency, DefaultTimeout).ready && q != [] {
      SendInOrder(q, files, c, attempt);
      SendSkipsMarked(q, files, c, attempt);
      assert SenderMain(c, base, probes, latency, files, attempt).1 == SendAll(q, files, c, attempt);
    }
  }
}
