/**
 * The upload pass (`performUploads`): every submitted file whose field has no
 * bound value yet is checked against the field's allowed types and sent to
 * storage; a stored file binds its upload id to the field and flags the field
 * as uploaded for the validation pass that follows.
 *
 * The upload class (type sniffing, resizing, the move into storage and the
 * database row) and the random file name are collaborators, passed in as
 * an `UploadService`.
 */
module Uploads {
  import opened PhpValue
  import opened Schema
  import opened Helpers

  /** One submitted file, as PHP reports it for one field. */
  datatype FileEntry = FileEntry(clientName: string, mimeType: string, tmpName: string, error: int, size: int)

  /** What the upload object is built from: the file, the destination folder,
      the stored file name ("" keeps the client's name) and the optional resize box. */
  datatype UploadRequest = UploadRequest(file: FileEntry, folder: string, fileName: string,
                                         resize: Option<(int, int)>)

  /** `draw(name)` is the random number drawn for the field's stored name;
      `typeAllowed(request, fileType)` is the upload's type check; `send(request)`
      is the upload id on success and None when sending throws. */
  datatype UploadService = UploadService(
    draw: string -> nat,
    typeAllowed: (UploadRequest, Option<string>) -> bool,
    send: UploadRequest -> Option<Value>)

  /** A stored upload: the field, what was sent and the id it was given. */
  datatype Upload = Upload(field: string, request: UploadRequest, id: Value)

  datatype UploadPass = UploadPass(
    post: map<string, Value>,
    data: map<string, FieldSpec>,
    order: seq<string>,
    typeRejected: seq<string>,
    sendFailed: seq<string>,
    uploads: seq<Upload>)

  datatype Outcome = Skipped | TypeRejected | SendFailed | Sent(id: Value)

  /** The pass at the top of `performUploads`: the three lists cleared. */
  function StartUploads(post: map<string, Value>, data: map<string, FieldSpec>, order: seq<string>): UploadPass
  {
    UploadPass(post, data, order, [], [], [])
  }

  /** The stored name: "file" and a random number when the field declares a file
      name template, otherwise empty. */
  function StoredName(f: FieldSpec, n: nat): (r: string)
    ensures r == "" <==> f.fileName.None?
  {
    if f.fileName.Some? then "file" + NatToString(n) else ""
  }

  /** A stored name is "file" followed by decimal digits. */
  lemma StoredNameShape(f: FieldSpec, n: nat)
    requires f.fileName.Some?
    ensures var r := StoredName(f, n);
      |r| > 4 && r[..4] == "file" && forall i :: 4 <= i < |r| ==> IsDigit(r[i])
  {
    var d := NatToString(n);
    assert StoredName(f, n) == "file" + d;
    assert forall i :: 4 <= i < |"file" + d| ==> ("file" + d)[i] == d[i - 4];
  }

  /** The destination folder: the upload root, then the field's folder if any. */
  function Destination(f: FieldSpec): (r: string)
    ensures |r| >= |UploadFolder| && r[..|UploadFolder|] == UploadFolder
  {
    UploadFolder + (if f.folder.Some? then f.folder.value else "")
  }

  function RequestFor(f: FieldSpec, name: string, file: FileEntry, svc: UploadService): UploadRequest
  {
    UploadRequest(file, Destination(f), StoredName(f, svc.draw(name)), f.resize)
  }

  /** What happens to one submitted file: skipped when the field already holds a
      value, otherwise refused by the type check, failed in sending, or stored. */
  function OutcomeOf(post: map<string, Value>, data: map<string, FieldSpec>, name: string,
                     file: FileEntry, svc: UploadService): Outcome
  {
    if !Empty(Lookup(post, name)) then Skipped
    else
      var f := SpecOf(data, name);
      var req := RequestFor(f, name, file, svc);
      if !svc.typeAllowed(req, f.fileType) then TypeRejected
      else match svc.send(req)
        case None => SendFailed
        case Some(id) => Sent(id)
  }

  /** The field flagged as uploaded; a field the schema lacks is created holding only the flag. */
  function MarkUploaded(data: map<string, FieldSpec>, name: string): (r: map<string, FieldSpec>)
    ensures r.Keys == data.Keys + {name}
    ensures r[name].isUpload
    ensures r[name] == SpecOf(data, name).(isUpload := true)
  {
    data[name := SpecOf(data, name).(isUpload := true)]
  }

  /** Flagging a field leaves every other field's specification alone. */
  lemma MarkUploadedElsewhere(data: map<string, FieldSpec>, name: string, k: string)
    requires k != name
    ensures SpecOf(MarkUploaded(data, name), k) == SpecOf(data, k)
  {
  }

  /** One turn of `performUploads`' loop. */
  function UploadStep(s: UploadPass, name: string, file: FileEntry, svc: UploadService): UploadPass
  {
    match OutcomeOf(s.post, s.data, name, file, svc)
    case Skipped => s
    case TypeRejected => s.(typeRejected := s.typeRejected + [name])
    case SendFailed => s.(sendFailed := s.sendFailed + [name])
    case Sent(id) =>
      s.(post := s.post[name := id], data := MarkUploaded(s.data, name),
         order := if name in s.data then s.order else s.order + [name],
         uploads := s.uploads + [Upload(name, RequestFor(SpecOf(s.data, name), name, file, svc), id)])
  }

  /** A turn keeps the schema's order in step with its keys; a created field comes last. */
  lemma UploadStepOrdered(s: UploadPass, name: string, file: FileEntry, svc: UploadService)
    requires Ordered(s.order, s.data.Keys)
    ensures var t := UploadStep(s, name, file, svc);
      Ordered(t.order, t.data.Keys) && t.order[..|s.order|] == s.order
  {
    assert (s.order + [name])[..|s.order|] == s.order;
  }

  /** The loop over the submitted files in order. */
  function UploadAll(s: UploadPass, files: seq<(string, FileEntry)>, svc: UploadService): UploadPass
    decreases |files|, 1
  {
    if files == [] then s else UploadLast(s, files, svc)
  }

  /** The loop up to its last file, then that file's turn. */
  function UploadLast(s: UploadPass, files: seq<(string, FileEntry)>, svc: UploadService): UploadPass
    requires files != []
    decreases |files|, 0
  {
    var last := files[|files| - 1];
    UploadStep(UploadAll(s, files[..|files| - 1], svc), last.0, last.1, svc)
  }

  /** The loop is the loop without the last file, then that file's turn. */
  lemma UploadAllLast(s: UploadPass, files: seq<(string, FileEntry)>, svc: UploadService)
    requires files != []
    ensures UploadAll(s, files, svc)
              == UploadStep(UploadAll(s, files[..|files| - 1], svc), files[|files| - 1].0, files[|files| - 1].1, svc)
  {
    assert UploadAll(s, files, svc) == UploadLast(s, files, svc);
  }

  /** The loop over a prefix one file longer is one more turn. */
  lemma UploadAllSnoc(s: UploadPass, files: seq<(string, FileEntry)>, i: nat, svc: UploadService)
    requires i < |files|
    ensures UploadAll(s, files[..i + 1], svc) == UploadStep(UploadAll(s, files[..i], svc), files[i].0, files[i].1, svc)
  {
    assert files[..i + 1][..i] == files[..i];
    assert UploadAll(s, files[..i + 1], svc) == UploadLast(s, files[..i + 1], svc);
  }

  // ------------------------------------------------------------ properties

  predicate DistinctNames(files: seq<(string, FileEntry)>)
  {
    forall i, j :: 0 <= i < j < |files| ==> files[i].0 != files[j].0
  }

  predicate Mentions(files: seq<(string, FileEntry)>, name: string)
  {
    exists i :: 0 <= i < |files| && files[i].0 == name
  }

  /** The kinds of outcome, for selecting the files that had one. */
  datatype Kind = KSkipped | KTypeRejected | KSendFailed | KSent

  function KindOf(o: Outcome): Kind
  {
    match o
    case Skipped => KSkipped
    case TypeRejected => KTypeRejected
    case SendFailed => KSendFailed
    case Sent(_) => KSent
  }

  /** The names of the files whose outcome, judged on the state before the loop, has kind `k`. */
  function Selected(files: seq<(string, FileEntry)>, post: map<string, Value>, data: map<string, FieldSpec>,
                    svc: UploadService, k: Kind): seq<string>
    decreases |files|
  {
    if files == [] then []
    else
      var last := files[|files| - 1];
      Selected(files[..|files| - 1], post, data, svc, k)
        + (if KindOf(OutcomeOf(post, data, last.0, last.1, svc)) == k then [last.0] else [])
  }

  function UploadFields(us: seq<Upload>): seq<string>
  {
    seq(|us|, i requires 0 <= i < |us| => us[i].field)
  }

  /** The loop keeps the schema's order in step with its keys, only ever appending. */
  lemma {:induction false} UploadAllOrdered(s: UploadPass, files: seq<(string, FileEntry)>, svc: UploadService)
    requires Ordered(s.order, s.data.Keys)
    ensures var t := UploadAll(s, files, svc);
      Ordered(t.order, t.data.Keys) && |s.order| <= |t.order| && t.order[..|s.order|] == s.order
    decreases |files|
  {
    if files != [] {
      var init := files[..|files| - 1];
      UploadAllOrdered(s, init, svc);
      var m := UploadAll(s, init, svc);
      UploadAllLast(s, files, svc);
      UploadStepOrdered(m, files[|files| - 1].0, files[|files| - 1].1, svc);
      var t := UploadAll(s, files, svc);
      assert t.order[..|s.order|] == t.order[..|m.order|][..|s.order|];
    }
  }

  /** A turn only touches its own field. */
  lemma UploadStepLocal(s: UploadPass, name: string, file: FileEntry, svc: UploadService)
    ensures var t := UploadStep(s, name, file, svc);
      forall k :: k != name ==> Lookup(t.post, k) == Lookup(s.post, k) && SpecOf(t.data, k) == SpecOf(s.data, k)
  {
    forall k | k != name {
      MarkUploadedElsewhere(s.data, name, k);
    }
  }

  /** Fields without a submitted file keep their bound value and their specification. */
  lemma {:induction false} UploadAllFrame(s: UploadPass, files: seq<(string, FileEntry)>, svc: UploadService,
                                          name: string)
    requires !Mentions(files, name)
    ensures Lookup(UploadAll(s, files, svc).post, name) == Lookup(s.post, name)
    ensures SpecOf(UploadAll(s, files, svc).data, name) == SpecOf(s.data, name)
    decreases |files|
  {
    if files != [] {
      var init := files[..|files| - 1];
      assert !Mentions(init, name) by {
        forall i | 0 <= i < |init| ensures init[i].0 != name {
          assert init[i] == files[i];
        }
      }
      UploadAllFrame(s, init, svc, name);
      UploadAllLast(s, files, svc);
      UploadStepLocal(UploadAll(s, init, svc), files[|files| - 1].0, files[|files| - 1].1, svc);
    }
  }

  /** Dropping the last file keeps the names distinct, and the dropped name does not occur earlier. */
  lemma DistinctInit(files: seq<(string, FileEntry)>)
    requires DistinctNames(files) && files != []
    ensures DistinctNames(files[..|files| - 1])
    ensures !Mentions(files[..|files| - 1], files[|files| - 1].0)
  {
    var init := files[..|files| - 1];
    forall i | 0 <= i < |init| ensures init[i] == files[i] {
    }
  }

  /** The outcome of a file only depends on its own field's value and specification. */
  lemma SameOutcome(p1: map<string, Value>, d1: map<string, FieldSpec>, p2: map<string, Value>,
                    d2: map<string, FieldSpec>, name: string, file: FileEntry, svc: UploadService)
    requires Lookup(p1, name) == Lookup(p2, name) && SpecOf(d1, name) == SpecOf(d2, name)
    ensures OutcomeOf(p1, d1, name, file, svc) == OutcomeOf(p2, d2, name, file, svc)
  {
  }

  /** With distinct field names each file is judged on the state before the loop:
      the refused, failed and stored lists are exactly the files whose initial
      outcome has that kind, in submission order. */
  lemma {:induction false} UploadAllPartition(s: UploadPass, files: seq<(string, FileEntry)>, svc: UploadService)
    requires DistinctNames(files)
    ensures var t := UploadAll(s, files, svc);
      && t.typeRejected == s.typeRejected + Selected(files, s.post, s.data, svc, KTypeRejected)
      && t.sendFailed == s.sendFailed + Selected(files, s.post, s.data, svc, KSendFailed)
      && UploadFields(t.uploads) == UploadFields(s.uploads) + Selected(files, s.post, s.data, svc, KSent)
    decreases |files|
  {
    if files != [] {
      var init := files[..|files| - 1];
      var last := files[|files| - 1];
      DistinctInit(files);
      UploadAllPartition(s, init, svc);
      UploadAllFrame(s, init, svc, last.0);
      var m := UploadAll(s, init, svc);
      UploadAllLast(s, files, svc);
      UploadStepLists(m, last.0, last.1, svc);
      SameOutcome(m.post, m.data, s.post, s.data, last.0, last.1, svc);
    }
  }

  /** A turn appends its field to the list of its outcome's kind and to no other. */
  lemma UploadStepLists(s: UploadPass, name: string, file: FileEntry, svc: UploadService)
    ensures var t := UploadStep(s, name, file, svc);
      var k := KindOf(OutcomeOf(s.post, s.data, name, file, svc));
      && t.typeRejected == s.typeRejected + (if k == KTypeRejected then [name] else [])
      && t.sendFailed == s.sendFailed + (if k == KSendFailed then [name] else [])
      && UploadFields(t.uploads) == UploadFields(s.uploads) + (if k == KSent then [name] else [])
  {
    match OutcomeOf(s.post, s.data, name, file, svc)
    case Skipped =>
    case TypeRejected =>
    case SendFailed =>
    case Sent(id) =>
      var u := Upload(name, RequestFor(SpecOf(s.data, name), name, file, svc), id);
      assert UploadFields(s.uploads + [u]) == UploadFields(s.uploads) + [name];
  }

  /** A stored file binds its id to the field and flags the field as uploaded;
      every other outcome leaves the field's value and specification as they were. */
  lemma UploadStepBinds(s: UploadPass, name: string, file: FileEntry, svc: UploadService)
    ensures var t := UploadStep(s, name, file, svc);
      match OutcomeOf(s.post, s.data, name, file, svc)
      case Sent(id) => name in t.post && t.post[name] == id && name in t.data && t.data[name].isUpload
      case _ => t.post == s.post && t.data == s.data
  {
  }

  /** A field that already holds a value is never sent again, and a file is only
      sent after passing the type check against the field's declared types. */
  lemma SentOnlyWhenAllowed(post: map<string, Value>, data: map<string, FieldSpec>, name: string,
                            file: FileEntry, svc: UploadService)
    ensures var o := OutcomeOf(post, data, name, file, svc);
      && (!Empty(Lookup(post, name)) <==> o == Skipped)
      && (o.Sent? ==> svc.typeAllowed(RequestFor(SpecOf(data, name), name, file, svc), SpecOf(data, name).fileType)
                      && svc.send(RequestFor(SpecOf(data, name), name, file, svc)) == Some(o.id))
  {
  }
}
