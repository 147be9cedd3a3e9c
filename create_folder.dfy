/**
 * The "create new folder" screen of the file list: a controller that checks
 * the target folder when it is set up, and then builds the page out of up to
 * three forms (new folders, a new online-media file, a new text file), each
 * shown only when the matching permission holds.
 *
 * Markup is abstracted away: a form is a value that records what the controller
 * writes into it (options, input groups, hidden fields, listed extensions).
 */
module CreateFolder {
  import opened Util

  // ---------------------------------------------------------------- values

  /** A file storage: its uid (0 is the null storage), its name, and whether the user may add files. */
  datatype Storage = Storage(uid: int, name: string, canAddFile: bool)

  /** A resolved folder: its identifier, its storage, and whether the user may add below it. */
  datatype Folder = Folder(identifier: string, storage: Storage, canAdd: bool)

  /** The request parameters `number`, `target` and `returnUrl`, `number` already read as an integer. */
  datatype Request = Request(number: int, target: string, returnUrl: string)

  /** The two exceptions the set-up can raise. */
  datatype InitError = TargetNoDirectory | InsufficientFolderAccess

  /** What the set-up ends in: ready for rendering, or the exception it raised. */
  datatype Outcome = Ready | Raised(error: InitError)

  /** An `<option>` of the number selector. */
  datatype NumberChoice = NumberChoice(value: int, selected: bool)

  /** One new-folder input group: its index `a`, the ordinal `a + 1` in its label, and its hidden target. */
  datatype FolderGroup = FolderGroup(index: int, ordinal: int, target: string)

  /** A section of the page content. `redirect` is the hidden `redirect` field of a form. */
  datatype Section =
    | PageHeader
    | FolderForm(choices: seq<NumberChoice>, groups: seq<FolderGroup>, redirect: string)
    | MediaForm(target: string, providers: seq<string>, redirect: string)
    | TextFileForm(target: string, extensions: seq<string>, redirect: string)

  /** The `back` document-header button: empty, or a link back to the return URL. */
  datatype BackButton = NoBack | Back(url: string)

  /** A piece of the accumulated page. */
  datatype Part =
    | PageStart
    | ModuleBody(sections: seq<Section>, back: BackButton, path: string)
    | PageEnd

  /**
   * The collaborators `main` consults: the online-media extensions, the
   * `textfile_ext` setting already split at the commas, and the deny-pattern test.
   */
  datatype Services = Services(
    mediaExtensions: seq<string>,
    textFileExtensions: seq<string>,
    passesDenyPattern: string -> bool)

  /** `$folderNumber`: the number of options of the selector. */
  const FolderNumber: int := 10

  // ---------------------------------------------------------- the checks

  /** PHP's truth value of a string: everything but `""` and `"0"`. */
  predicate Truthy(s: string) {
    s != "" && s != "0"
  }

  /** The exception code of each set-up error. */
  function ErrorCode(e: InitError): (code: int)
    ensures code == 1294586845 <==> e == TargetNoDirectory
    ensures code == 1375889838 <==> e == InsufficientFolderAccess
  {
    match e
    case TargetNoDirectory => 1294586845
    case InsufficientFolderAccess => 1375889838
  }

  /**
   * The target check of `init`: no folder is the first error, a folder on the
   * null storage the second; any other folder passes.
   */
  function CheckFolder(folder: Option<Folder>): (r: Outcome)
    ensures r == Raised(TargetNoDirectory) <==> folder.None?
    ensures r == Raised(InsufficientFolderAccess) <==> folder.Some? && folder.value.storage.uid == 0
    ensures r == Ready <==> folder.Some? && folder.value.storage.uid != 0
  {
    if folder.None? then Raised(TargetNoDirectory)
    else if folder.value.storage.uid == 0 then Raised(InsufficientFolderAccess)
    else Ready
  }

  /** `forceIntegerInRange`: values below the range become its minimum, values above its maximum. */
  function Clamp(n: int, lo: int, hi: int): (r: int)
    requires lo <= hi
    ensures lo <= r <= hi
    ensures lo <= n <= hi ==> r == n
    ensures n < lo ==> r == lo
    ensures n > hi ==> r == hi
  {
    if n < lo then lo else if n > hi then hi else n
  }

  // -------------------------------------------------------- the folder form

  /** The options `1 .. count` of the selector, the one equal to `number` selected. */
  function NumberChoices(count: int, number: int): seq<NumberChoice>
    decreases count
  {
    if count <= 0 then [] else NumberChoices(count - 1, number) + [NumberChoice(count, number == count)]
  }

  lemma {:induction false} NumberChoicesAt(count: int, number: int, k: int)
    requires 0 <= k < count
    ensures |NumberChoices(count, number)| == count
    ensures NumberChoices(count, number)[k] == NumberChoice(k + 1, number == k + 1)
    decreases count
  {
    NumberChoicesLength(count, number);
    if k < count - 1 {
      NumberChoicesAt(count - 1, number, k);
    }
  }

  lemma {:induction false} NumberChoicesLength(count: int, number: int)
    ensures |NumberChoices(count, number)| == if count <= 0 then 0 else count
    decreases count
  {
    if count > 0 {
      NumberChoicesLength(count - 1, number);
    }
  }

  /**
   * The options ascend from 1, and for a number within `1 .. count` exactly one
   * of them is selected: the one whose value is the number.
   */
  lemma ExactlyOneSelected(count: int, number: int)
    requires 1 <= number <= count
    ensures |NumberChoices(count, number)| == count
    ensures forall k :: 0 <= k < count ==> NumberChoices(count, number)[k].value == k + 1
    ensures forall k :: 0 <= k < count ==> (NumberChoices(count, number)[k].selected <==> k == number - 1)
  {
    NumberChoicesLength(count, number);
    forall k | 0 <= k < count
      ensures NumberChoices(count, number)[k] == NumberChoice(k + 1, number == k + 1)
    {
      NumberChoicesAt(count, number, k);
    }
  }

  /** The new-folder input groups `0 .. number - 1`, each labelled one more than its index. */
  function FolderGroups(number: int, target: string): seq<FolderGroup>
    decreases number
  {
    if number <= 0 then [] else FolderGroups(number - 1, target) + [FolderGroup(number - 1, number, target)]
  }

  /** There are exactly `number` groups (none for a number below 1); group `k` is indexed `k`, labelled `k + 1`. */
  lemma {:induction false} FolderGroupsAt(number: int, target: string)
    ensures |FolderGroups(number, target)| == if number <= 0 then 0 else number
    ensures forall k :: 0 <= k < |FolderGroups(number, target)| ==>
              FolderGroups(number, target)[k] == FolderGroup(k, k + 1, target)
    decreases number
  {
    if number > 0 {
      FolderGroupsAt(number - 1, target);
    }
  }

  /** The option loop of `main`. */
  method BuildNumberChoices(count: int, number: int) returns (choices: seq<NumberChoice>)
    ensures choices == NumberChoices(count, number)
  {
    choices := [];
    var a := 1;
    while a <= count
      invariant 1 <= a <= if count < 1 then 1 else count + 1
      invariant choices == NumberChoices(a - 1, number)
    {
      choices := choices + [NumberChoice(a, number == a)];
      a := a + 1;
    }
  }

  /** The new-folder loop of `main`. */
  method BuildFolderGroups(number: int, target: string) returns (groups: seq<FolderGroup>)
    ensures groups == FolderGroups(number, target)
  {
    groups := [];
    var a := 0;
    while a < number
      invariant 0 <= a <= if number < 0 then 0 else number
      invariant groups == FolderGroups(a, target)
    {
      groups := groups + [FolderGroup(a, a + 1, target)];
      a := a + 1;
    }
  }

  /** An extension loop of `main`: the extensions that pass the deny pattern, in their order. */
  method FilterExtensions(exts: seq<string>, pass: string -> bool) returns (kept: seq<string>)
    ensures kept == Filter(exts, pass)
    ensures forall e :: e in kept <==> e in exts && pass(e)
  {
    kept := [];
    var i := 0;
    while i < |exts|
      invariant 0 <= i <= |exts|
      invariant kept == Filter(exts[..i], pass)
    {
      FilterStep(exts, i, pass);
      if pass(exts[i]) {
        kept := kept + [exts[i]];
      }
      i := i + 1;
    }
    assert exts[..i] == exts;
    forall e
      ensures e in kept <==> e in exts && pass(e)
    {
      FilterMembers(exts, pass, e);
    }
  }

  // ------------------------------------------------------------ the page

  /** The folder form as `main` builds it once `number` is clamped. */
  function FolderFormOf(number: int, target: string, returnUrl: string): Section {
    FolderForm(NumberChoices(FolderNumber, number), FolderGroups(number, target), returnUrl)
  }

  /** The two file forms, each listing the extensions that pass the deny pattern. */
  function FileFormsOf(target: string, returnUrl: string, services: Services): seq<Section> {
    [MediaForm(target, Filter(services.mediaExtensions, services.passesDenyPattern), returnUrl),
     TextFileForm(target, Filter(services.textFileExtensions, services.passesDenyPattern), returnUrl)]
  }

  /** The page content of `main`: the header, then each form its permission allows. */
  function PageSections(folder: Folder, number: int, target: string, returnUrl: string, services: Services)
    : seq<Section>
  {
    [PageHeader]
      + (if folder.canAdd then [FolderFormOf(number, target, returnUrl)] else [])
      + (if folder.storage.canAddFile then FileFormsOf(target, returnUrl, services) else [])
  }

  /** The `back` button: a link exactly when the return URL is a true value. */
  function BackButtonOf(returnUrl: string): (b: BackButton)
    ensures b.Back? <==> Truthy(returnUrl)
    ensures b.Back? ==> b.url == returnUrl
  {
    if Truthy(returnUrl) then Back(returnUrl) else NoBack
  }

  /**
   * The folder form appears exactly when the folder allows adding, the two file
   * forms exactly when the storage allows adding files, and the header always
   * comes first.
   */
  lemma SectionsGating(folder: Folder, number: int, target: string, returnUrl: string, services: Services)
    ensures var s := PageSections(folder, number, target, returnUrl, services);
      s[0] == PageHeader
      && ((exists i :: 0 <= i < |s| && s[i].FolderForm?) <==> folder.canAdd)
      && ((exists i :: 0 <= i < |s| && s[i].MediaForm?) <==> folder.storage.canAddFile)
      && ((exists i :: 0 <= i < |s| && s[i].TextFileForm?) <==> folder.storage.canAddFile)
      && |s| == 1 + (if folder.canAdd then 1 else 0) + (if folder.storage.canAddFile then 2 else 0)
  {
    var s := PageSections(folder, number, target, returnUrl, services);
    if folder.canAdd {
      assert s[1].FolderForm?;
    }
    if folder.storage.canAddFile {
      var at := if folder.canAdd then 2 else 1;
      assert s[at].MediaForm? && s[at + 1].TextFileForm?;
    }
  }

  predicate NotFolderForm(x: Section) {
    !x.FolderForm?
  }

  predicate NotFileForm(x: Section) {
    !x.MediaForm? && !x.TextFileForm?
  }

  /** The sections other than the folder form. */
  function WithoutFolderForm(s: seq<Section>): seq<Section> {
    Filter(s, NotFolderForm)
  }

  /** The sections other than the two file forms. */
  function WithoutFileForms(s: seq<Section>): seq<Section> {
    Filter(s, NotFileForm)
  }

  /** The sections of a page with a given folder part and file part, both possibly empty. */
  lemma SectionsFilter(middle: seq<Section>, tail: seq<Section>, p: Section -> bool)
    ensures Filter([PageHeader] + middle + tail, p) == Filter([PageHeader], p) + Filter(middle, p) + Filter(tail, p)
  {
    FilterConcat([PageHeader] + middle, tail, p);
    FilterConcat([PageHeader], middle, p);
  }

  /** The file forms are dropped by one filter and kept by the other. */
  lemma FileFormsFilter(target: string, returnUrl: string, services: Services)
    ensures Filter(FileFormsOf(target, returnUrl, services), NotFolderForm) == FileFormsOf(target, returnUrl, services)
    ensures Filter(FileFormsOf(target, returnUrl, services), NotFileForm) == []
  {
    var forms := FileFormsOf(target, returnUrl, services);
    assert forms == [forms[0]] + [forms[1]];
    FilterConcat([forms[0]], [forms[1]], NotFolderForm);
    FilterConcat([forms[0]], [forms[1]], NotFileForm);
    FilterSingleton(forms[0], NotFolderForm);
    FilterSingleton(forms[1], NotFolderForm);
    FilterSingleton(forms[0], NotFileForm);
    FilterSingleton(forms[1], NotFileForm);
  }

  /** Dropping the folder form leaves the header and, when permitted, the two file forms. */
  lemma SectionsWithoutFolderForm(folder: Folder, number: int, target: string,
                                  returnUrl: string, services: Services)
    ensures WithoutFolderForm(PageSections(folder, number, target, returnUrl, services))
         == [PageHeader] + (if folder.storage.canAddFile then FileFormsOf(target, returnUrl, services) else [])
  {
    var middle := if folder.canAdd then [FolderFormOf(number, target, returnUrl)] else [];
    var tail := if folder.storage.canAddFile then FileFormsOf(target, returnUrl, services) else [];
    SectionsFilter(middle, tail, NotFolderForm);
    FilterSingleton(PageHeader, NotFolderForm);
    FilterSingleton(FolderFormOf(number, target, returnUrl), NotFolderForm);
    FileFormsFilter(target, returnUrl, services);
  }

  /** Dropping the file forms leaves the header and, when permitted, the folder form. */
  lemma SectionsWithoutFileForms(folder: Folder, number: int, target: string,
                                 returnUrl: string, services: Services)
    ensures WithoutFileForms(PageSections(folder, number, target, returnUrl, services))
         == [PageHeader] + (if folder.canAdd then [FolderFormOf(number, target, returnUrl)] else [])
  {
    var middle := if folder.canAdd then [FolderFormOf(number, target, returnUrl)] else [];
    var tail := if folder.storage.canAddFile then FileFormsOf(target, returnUrl, services) else [];
    SectionsFilter(middle, tail, NotFileForm);
    FilterSingleton(PageHeader, NotFileForm);
    FilterSingleton(FolderFormOf(number, target, returnUrl), NotFileForm);
    FileFormsFilter(target, returnUrl, services);
  }

  /**
   * Nothing else depends on the two permissions: changing `canAdd` leaves
   * everything but the folder form as it was, and changing `canAddFile` leaves
   * everything but the two file forms as it was.
   */
  lemma PermissionsIndependent(folder: Folder, canAdd: bool, canAddFile: bool,
                               number: int, target: string, returnUrl: string, services: Services)
    ensures WithoutFolderForm(PageSections(folder.(canAdd := canAdd), number, target, returnUrl, services))
         == WithoutFolderForm(PageSections(folder, number, target, returnUrl, services))
    ensures WithoutFileForms(PageSections(folder.(storage := folder.storage.(canAddFile := canAddFile)),
                                          number, target, returnUrl, services))
         == WithoutFileForms(PageSections(folder, number, target, returnUrl, services))
  {
    SectionsWithoutFolderForm(folder.(canAdd := canAdd), number, target, returnUrl, services);
    SectionsWithoutFolderForm(folder, number, target, returnUrl, services);
    SectionsWithoutFileForms(folder.(storage := folder.storage.(canAddFile := canAddFile)),
                             number, target, returnUrl, services);
    SectionsWithoutFileForms(folder, number, target, returnUrl, services);
  }

  /** The forms of `main` for a folder and an already clamped number, built as `main` builds them. */
  method BuildSections(folder: Folder, number: int, target: string, returnUrl: string, services: Services)
    returns (sections: seq<Section>)
    ensures sections == PageSections(folder, number, target, returnUrl, services)
  {
    sections := [PageHeader];
    if folder.canAdd {
      var choices := BuildNumberChoices(FolderNumber, number);
      var groups := BuildFolderGroups(number, target);
      sections := sections + [FolderForm(choices, groups, returnUrl)];
    }
    ghost var head := sections;
    if folder.storage.canAddFile {
      var providers := FilterExtensions(services.mediaExtensions, services.passesDenyPattern);
      sections := sections + [MediaForm(target, providers, returnUrl)];
      var extensions := FilterExtensions(services.textFileExtensions, services.passesDenyPattern);
      sections := sections + [TextFileForm(target, extensions, returnUrl)];
      assert sections == head + FileFormsOf(target, returnUrl, services);
    }
  }

  // ------------------------------------------------------ the controller

  /** `CreateFolderController`: the fields `init` fills and `main` renders from. */
  class CreateFolderController {
    var number: int
    var target: string
    var returnUrl: string
    var folder: Option<Folder>
    var title: string
    var content: seq<Part>

    /** A controller before `init`: no folder and no content yet. */
    constructor ()
      ensures folder == None && content == [] && title == ""
    {
      number := 0;
      target := "";
      returnUrl := "";
      folder := None;
      title := "";
      content := [];
    }

    /**
     * `init`: reads the request, resolves the target when it is a true value,
     * checks the folder, and on success sets the title to the storage name and
     * the folder identifier.
     */
    method Init(request: Request, sanitizeLocalUrl: string -> string, resolve: string -> Option<Folder>)
      returns (outcome: Outcome)
      modifies this
      ensures number == request.number && target == request.target
      ensures returnUrl == sanitizeLocalUrl(request.returnUrl)
      ensures folder == if Truthy(request.target) then resolve(request.target) else old(folder)
      ensures outcome == CheckFolder(folder)
      ensures outcome.Ready? ==> title == folder.value.storage.name + ": " + folder.value.identifier
      ensures outcome.Raised? ==> title == old(title)
      ensures content == old(content)
    {
      number := request.number;
      target := request.target;
      returnUrl := sanitizeLocalUrl(request.returnUrl);
      if Truthy(target) {
        folder := resolve(target);
      }
      if folder.None? {
        return Raised(TargetNoDirectory);
      }
      if folder.value.storage.uid == 0 {
        return Raised(InsufficientFolderAccess);
      }
      title := folder.value.storage.name + ": " + folder.value.identifier;
      outcome := Ready;
    }

    /**
     * `main`: clamps `number` into 1 .. 10 when the folder allows adding, then
     * appends the page start, the module body with the permitted forms, the back
     * button and the title as path, and the page end.
     */
    method MainContent(services: Services)
      requires folder.Some?
      modifies this
      ensures folder == old(folder) && target == old(target) && returnUrl == old(returnUrl) && title == old(title)
      ensures number == if folder.value.canAdd then Clamp(old(number), 1, 10) else old(number)
      ensures content == old(content)
        + [PageStart,
           ModuleBody(PageSections(folder.value, number, target, returnUrl, services), BackButtonOf(returnUrl), title),
           PageEnd]
    {
      var f := folder.value;
      content := content + [PageStart];
      if f.canAdd {
        number := Clamp(number, 1, 10);
      }
      var sections := BuildSections(f, number, target, returnUrl, services);
      var back := NoBack;
      if Truthy(returnUrl) {
        back := Back(returnUrl);
      }
      content := content + [ModuleBody(sections, back, title), PageEnd];
    }
  }

  /**
   * The folder form of a rendered page: for whatever number was requested, the
   * selector offers 1 .. 10 with exactly the clamped number selected, and one
   * input group per new folder up to that number, each targeting the folder.
   */
  lemma FolderFormShape(requested: int, target: string, returnUrl: string)
    ensures var n := Clamp(requested, 1, 10);
      var form := FolderFormOf(n, target, returnUrl);
      |form.choices| == FolderNumber
      && (forall k :: 0 <= k < FolderNumber ==> form.choices[k].value == k + 1)
      && (forall k :: 0 <= k < FolderNumber ==> (form.choices[k].selected <==> k + 1 == n))
      && |form.groups| == n
      && (forall k :: 0 <= k < n ==> form.groups[k] == FolderGroup(k, k + 1, target))
  {
    var n := Clamp(requested, 1, 10);
    ExactlyOneSelected(FolderNumber, n);
    FolderGroupsAt(n, target);
  }
}
