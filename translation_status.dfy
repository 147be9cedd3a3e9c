/**
 * The translation-status matrix of the Web > Info module: one row per page of
 * a page tree, and for every language column the state of the page's
 * translation overlay (present, missing, or disabled for that page).
 *
 * The markup is abstracted away: a cell is a value that records what the
 * controller writes into it (its CSS status class, which links and checkboxes it
 * carries), and the database is a value holding the rows of the three tables
 * that are read.
 */
module TranslationStatus {
  import opened Util

  // ---------------------------------------------------------------- records

  /** A row of `pages` as the tree walk delivers it (uid and `l18n_cfg`). */
  datatype PageRecord = PageRecord(uid: int, l18nCfg: int)

  /** A row of `sys_language`. */
  datatype LanguageRecord = LanguageRecord(uid: int, title: string, deleted: bool)

  /** A row of `pages_language_overlay`. `hidden` is the raw integer flag. */
  datatype OverlayRecord = OverlayRecord(
    uid: int, pid: int, sysLanguageUid: int,
    hidden: int, starttime: int, endtime: int, deleted: bool)

  /** A row of `tt_content`, reduced to what the count query looks at. */
  datatype ContentRecord = ContentRecord(uid: int, pid: int, sysLanguageUid: int, deleted: bool)

  /** The tables read by the controller, each in the order the database returns it. */
  datatype Database = Database(
    languages: seq<LanguageRecord>,
    overlays: seq<OverlayRecord>,
    content: seq<ContentRecord>)

  /**
   * The current backend user: the admin flag and the group's
   * `allowed_languages` setting, already split at the commas (the empty list
   * stands for the empty setting).
   */
  datatype BackendUser = BackendUser(admin: bool, allowedLanguages: seq<int>)

  /**
   * Everything a rendering depends on besides the page tree: the database, the
   * user, the request time `EXEC_TIME`, the `SET[lang]` module setting, and two
   * collaborators whose code is not part of this model: `hideIfNotTranslated`
   * on `l18n_cfg`, and the page's `mod.SHARED.disableLanguages` list.
   */
  datatype Env = Env(
    db: Database,
    user: BackendUser,
    now: int,
    langFilter: int,
    hideIfNotTranslated: int -> bool,
    disableLanguages: int -> seq<int>)

  /** The CSS status class of a cell: `success`, `danger` or the empty class. */
  datatype Status = Success | Danger | Neutral

  /** The `_COUNT`-annotated and `_HIDDEN`-annotated overlay row of a (page, language) pair. */
  datatype Overlay = Overlay(uid: int, count: nat, hidden: bool)

  /** A content-element count as printed: the number, or `-` when there is none. */
  datatype ContentCount = Count(n: nat) | Dash

  /** The name `newOL[lang][page]` of a creation checkbox. */
  datatype NewOverlayKey = NewOverlayKey(langUid: int, pageUid: int)

  /** A body cell. */
  datatype Cell =
    | PageCell(pageUid: int)                        // icon, title, edit link for the default language
    | DefaultInfoCell(status: Status, pageUid: int,  // edit-record and view links, `D`/`N` markers
                      markedD: bool, markedN: bool)
    | CountCell(status: Status, count: ContentCount)
    | OverlayTitleCell(status: Status, pageUid: int, langUid: int, duplicate: bool)
    | OverlayRecordCell(status: Status, overlayUid: int, langUid: int)
    | EmptyCell(status: Status)
    | InfoCell(status: Status, checkbox: Option<NewOverlayKey>)
  {
    /** Whether the cell links to an edit form. */
    predicate HasEditLink() {
      PageCell? || DefaultInfoCell? || OverlayTitleCell? || OverlayRecordCell?
    }
  }

  /** A header cell. A list of uids is the set of records its edit link opens; empty means no link. */
  datatype HeaderCell =
    | PageHeading
    | DefaultHeading(editUids: seq<int>)
    | LanguageHeading(langUid: int, title: string)
    | OverlaysHeading(langUid: int, editUids: seq<int>)
    | CreateHeading(langUid: int, pending: seq<int>)  // pages whose checkbox feeds the create link

  datatype Table = Table(header: seq<HeaderCell>, body: seq<seq<Cell>>)

  // --------------------------------------------------------- status rules

  /** `l18n_cfg & 1`: the low bit (Euclidean `% 2` agrees with the two's-complement bit). */
  predicate HideDefaultLanguage(l18nCfg: int) {
    l18nCfg % 2 == 1
  }

  /** Status of the default-language cells of a page. */
  function DefaultStatus(l18nCfg: int): (s: Status)
    ensures s == Danger <==> HideDefaultLanguage(l18nCfg)
    ensures s == Success <==> !HideDefaultLanguage(l18nCfg)
  {
    if HideDefaultLanguage(l18nCfg) then Danger else Success
  }

  /** Status of the cells of a page whose overlay is missing; disabled languages are handled apart. */
  function MissingStatus(l18nCfg: int, hideIfNotTranslated: int -> bool): (s: Status)
    ensures s != Success
    ensures s == Danger <==> hideIfNotTranslated(l18nCfg) || HideDefaultLanguage(l18nCfg)
  {
    if hideIfNotTranslated(l18nCfg) || HideDefaultLanguage(l18nCfg) then Danger else Neutral
  }

  /** Status of the cells of a page whose overlay exists. */
  function OverlayStatus(hidden: bool, l18nCfg: int, hideIfNotTranslated: int -> bool): (s: Status)
    ensures s == Success <==> !hidden
    ensures hidden ==> s == MissingStatus(l18nCfg, hideIfNotTranslated)
  {
    if hidden then MissingStatus(l18nCfg, hideIfNotTranslated) else Success
  }

  // -------------------------------------------------------------- queries

  /** The query `deleted=0` on `sys_language`. */
  function LiveLanguages(db: Database): seq<LanguageRecord> {
    Filter(db.languages, (l: LanguageRecord) => !l.deleted)
  }

  /** Whether `getSystemLanguages` restricts the list to the user's allowed languages. */
  predicate Restricted(user: BackendUser) {
    !user.admin && |user.allowedLanguages| > 0
  }

  /** The languages `getSystemLanguages` returns for `rows`. */
  function AllowedLanguages(user: BackendUser, rows: seq<LanguageRecord>): seq<LanguageRecord> {
    Filter(rows, (l: LanguageRecord) => !Restricted(user) || l.uid in user.allowedLanguages)
  }

  /** The rows of `pages_language_overlay` for one page and language. */
  function OverlayRows(db: Database, pageUid: int, langUid: int): seq<OverlayRecord> {
    Filter(db.overlays, (o: OverlayRecord) => o.pid == pageUid && o.sysLanguageUid == langUid && !o.deleted)
  }

  /** Whether an overlay is hidden now: its flag, an expired end time, or a start time still ahead. */
  predicate EffectivelyHidden(o: OverlayRecord, now: int) {
    o.hidden != 0 || (o.endtime > 0 && o.endtime < now) || now < o.starttime
  }

  /** `getLangStatus`: the first overlay row, with the number of rows and its hidden flag. */
  function LangStatus(db: Database, pageUid: int, langUid: int, now: int): (r: Option<Overlay>)
    ensures r.None? <==> OverlayRows(db, pageUid, langUid) == []
    ensures r.Some? ==> r.value.count == |OverlayRows(db, pageUid, langUid)| >= 1
    ensures r.Some? ==> r.value.uid == OverlayRows(db, pageUid, langUid)[0].uid
    ensures r.Some? ==> (r.value.hidden <==> EffectivelyHidden(OverlayRows(db, pageUid, langUid)[0], now))
  {
    var rows := OverlayRows(db, pageUid, langUid);
    if |rows| == 0 then None
    else Some(Overlay(rows[0].uid, |rows|, EffectivelyHidden(rows[0], now)))
  }

  /** The rows of `tt_content` for one page and language. */
  function ContentRows(db: Database, pageUid: int, langUid: int): seq<ContentRecord> {
    Filter(db.content, (c: ContentRecord) => c.pid == pageUid && c.sysLanguageUid == langUid && !c.deleted)
  }

  /** `getContentElementCount`: the number of content rows, or `-` when there are none. */
  function ContentElementCount(db: Database, pageUid: int, langUid: int): (r: ContentCount)
    ensures r == Dash <==> ContentRows(db, pageUid, langUid) == []
    ensures r.Count? ==> r.n == |ContentRows(db, pageUid, langUid)| > 0
  {
    var n := |ContentRows(db, pageUid, langUid)|;
    if n == 0 then Dash else Count(n)
  }

  // ------------------------------------------------------ the languages

  /**
   * `getSystemLanguages`: the live languages in query order, reduced to the
   * user's allowed languages unless the user is an admin or the setting is empty.
   */
  method SystemLanguages(user: BackendUser, db: Database) returns (languages: seq<LanguageRecord>)
    ensures languages == AllowedLanguages(user, LiveLanguages(db))
    ensures Restricted(user) ==> forall l :: l in languages <==>
      l in LiveLanguages(db) && l.uid in user.allowedLanguages
    ensures !Restricted(user) ==> languages == LiveLanguages(db)
  {
    var rows := LiveLanguages(db);
    var restricted := !user.admin && |user.allowedLanguages| > 0;
    languages := [];
    var i := 0;
    while i < |rows|
      invariant 0 <= i <= |rows|
      invariant languages == AllowedLanguages(user, rows[..i])
    {
      FilterStep(rows, i, (l: LanguageRecord) => !Restricted(user) || l.uid in user.allowedLanguages);
      if restricted {
        if rows[i].uid in user.allowedLanguages {
          languages := languages + [rows[i]];
        }
      } else {
        languages := languages + [rows[i]];
      }
      i := i + 1;
    }
    assert rows[..i] == rows;
    forall l
      ensures l in languages <==> l in rows && (!Restricted(user) || l.uid in user.allowedLanguages)
    {
      FilterMembers(rows, (l: LanguageRecord) => !Restricted(user) || l.uid in user.allowedLanguages, l);
    }
    if !Restricted(user) {
      FilterAll(rows, (l: LanguageRecord) => !Restricted(user) || l.uid in user.allowedLanguages);
    }
  }

  /** An entry of an ordered PHP array used as a menu: a key and the text it shows. */
  datatype MenuEntry = MenuEntry(key: int, text: string)

  /**
   * `$menu[$key] = $text` on an ordered array: an existing key keeps its
   * position and takes the new text, a new key goes to the end.
   */
  function Assign(menu: seq<MenuEntry>, key: int, text: string): seq<MenuEntry>
    decreases |menu|
  {
    if |menu| == 0 then [MenuEntry(key, text)]
    else if menu[0].key == key then [MenuEntry(key, text)] + menu[1..]
    else [menu[0]] + Assign(menu[1..], key, text)
  }

  /** The text of `key` in a menu, when the key is present. */
  function Lookup(menu: seq<MenuEntry>, key: int): Option<string>
    decreases |menu|
  {
    if |menu| == 0 then None
    else if menu[0].key == key then Some(menu[0].text)
    else Lookup(menu[1..], key)
  }

  /** The keys of a menu, in menu order. */
  function MenuKeys(menu: seq<MenuEntry>): (r: seq<int>)
    ensures |r| == |menu|
    decreases |menu|
  {
    if |menu| == 0 then [] else [menu[0].key] + MenuKeys(menu[1..])
  }

  /** The uids of a list of languages, in list order. */
  function LanguageUids(languages: seq<LanguageRecord>): seq<int>
    decreases |languages|
  {
    if |languages| == 0 then []
    else LanguageUids(languages[..|languages| - 1]) + [languages[|languages| - 1].uid]
  }

  /** The elements of `s` at their first occurrence, in the order of `s`: a reference for the key order. */
  function FirstOccurrences(s: seq<int>): seq<int>
    decreases |s|
  {
    if |s| == 0 then []
    else
      var d := FirstOccurrences(s[..|s| - 1]);
      if s[|s| - 1] in d then d else d + [s[|s| - 1]]
  }

  /** The language part of the module menu: `0 => [All]`, then one assignment per language. */
  function LanguageMenu(languages: seq<LanguageRecord>): seq<MenuEntry>
    decreases |languages|
  {
    if |languages| == 0 then [MenuEntry(0, "[All]")]
    else
      var last := languages[|languages| - 1];
      Assign(LanguageMenu(languages[..|languages| - 1]), last.uid, last.title)
  }

  /** The depth choices of the module menu, in menu order; 999 stands for an unlimited depth. */
  const DepthOptions: seq<int> := [0, 1, 2, 3, 4, 999]

  /** `modMenu`: the depth choices and the language choices. */
  method ModMenu(user: BackendUser, db: Database) returns (depths: seq<int>, langMenu: seq<MenuEntry>)
    ensures depths == DepthOptions
    ensures langMenu == LanguageMenu(AllowedLanguages(user, LiveLanguages(db)))
  {
    depths := [0, 1, 2, 3, 4, 999];
    var languages := SystemLanguages(user, db);
    langMenu := [MenuEntry(0, "[All]")];
    var i := 0;
    while i < |languages|
      invariant 0 <= i <= |languages|
      invariant langMenu == LanguageMenu(languages[..i])
    {
      assert languages[..i + 1][..i] == languages[..i];
      langMenu := Assign(langMenu, languages[i].uid, languages[i].title);
      i := i + 1;
    }
    assert languages[..i] == languages;
  }

  /** An assignment keeps the key order, and appends a key it has not seen. */
  lemma {:induction false} AssignKeys(menu: seq<MenuEntry>, key: int, text: string)
    ensures MenuKeys(Assign(menu, key, text)) == if key in MenuKeys(menu) then MenuKeys(menu) else MenuKeys(menu) + [key]
    decreases |menu|
  {
    if |menu| > 0 && menu[0].key != key {
      AssignKeys(menu[1..], key, text);
    }
  }

  /** After an assignment, the key shows the new text and every other key its old one. */
  lemma {:induction false} AssignLookup(menu: seq<MenuEntry>, key: int, text: string, k: int)
    ensures Lookup(Assign(menu, key, text), k) == if k == key then Some(text) else Lookup(menu, k)
    decreases |menu|
  {
    if |menu| > 0 && menu[0].key != key {
      AssignLookup(menu[1..], key, text, k);
    }
  }

  /** An assignment to a non-empty menu leaves its first entry's key in place. */
  lemma AssignFirst(menu: seq<MenuEntry>, key: int, text: string)
    requires |menu| > 0
    ensures |Assign(menu, key, text)| > 0 && Assign(menu, key, text)[0].key == menu[0].key
  {
  }

  /**
   * The menu starts with the key 0, and its keys are 0 followed by the
   * language uids in query order, each at its first occurrence: a repeated
   * uid keeps the position of its first language.
   */
  lemma {:induction false} LanguageMenuOrder(languages: seq<LanguageRecord>)
    ensures |LanguageMenu(languages)| > 0 && LanguageMenu(languages)[0].key == 0
    ensures MenuKeys(LanguageMenu(languages)) == FirstOccurrences([0] + LanguageUids(languages))
    decreases |languages|
  {
    if |languages| > 0 {
      var init := languages[..|languages| - 1];
      var last := languages[|languages| - 1];
      LanguageMenuOrder(init);
      AssignFirst(LanguageMenu(init), last.uid, last.title);
      AssignKeys(LanguageMenu(init), last.uid, last.title);
      var all := [0] + LanguageUids(languages);
      assert all[..|all| - 1] == [0] + LanguageUids(init);
    } else {
      assert [0] + LanguageUids(languages) == [0];
      assert FirstOccurrences([0]) == FirstOccurrences([0][..0]) + [0];
    }
  }

  /** The menu offers `[All]` and exactly the uids of the languages. */
  lemma {:induction false} LanguageMenuKeys(languages: seq<LanguageRecord>, k: int)
    ensures Lookup(LanguageMenu(languages), k).Some? <==> k == 0 || exists l :: l in languages && l.uid == k
    decreases |languages|
  {
    if |languages| > 0 {
      var init := languages[..|languages| - 1];
      var last := languages[|languages| - 1];
      LanguageMenuKeys(init, k);
      AssignLookup(LanguageMenu(init), last.uid, last.title, k);
      assert languages == init + [last];
    }
  }

  /** A language's entry shows its title unless a later language has the same uid. */
  lemma {:induction false} LanguageMenuTitle(languages: seq<LanguageRecord>, j: nat)
    requires j < |languages|
    requires forall k :: j < k < |languages| ==> languages[k].uid != languages[j].uid
    ensures Lookup(LanguageMenu(languages), languages[j].uid) == Some(languages[j].title)
    decreases |languages|
  {
    var n := |languages|;
    var init := languages[..n - 1];
    var last := languages[n - 1];
    AssignLookup(LanguageMenu(init), last.uid, last.title, languages[j].uid);
    if j < n - 1 {
      LanguageMenuTitle(init, j);
    }
  }

  /** Without a language of uid 0, the first entry is `0 => [All]`. */
  lemma {:induction false} LanguageMenuAll(languages: seq<LanguageRecord>)
    requires forall l :: l in languages ==> l.uid != 0
    ensures |LanguageMenu(languages)| > 0 && LanguageMenu(languages)[0] == MenuEntry(0, "[All]")
    decreases |languages|
  {
    if |languages| > 0 {
      var init := languages[..|languages| - 1];
      var last := languages[|languages| - 1];
      assert forall l :: l in init ==> l in languages;
      LanguageMenuAll(init);
      assert last in languages;
    }
  }

  // ---------------------------------------------------------- columns

  /** Whether the `SET[lang]` setting shows a language: `0` shows all of them. */
  predicate ShowsLanguage(langFilter: int, l: LanguageRecord) {
    langFilter == 0 || langFilter == l.uid
  }

  /** The languages that get columns, in the order of `languages`. */
  function Selected(languages: seq<LanguageRecord>, langFilter: int): seq<LanguageRecord> {
    Filter(languages, (l: LanguageRecord) => ShowsLanguage(langFilter, l))
  }

  /** A language gets a column exactly when it is listed and the setting shows it. */
  lemma SelectedLanguages(languages: seq<LanguageRecord>, langFilter: int, l: LanguageRecord)
    ensures l in Selected(languages, langFilter) <==>
      l in languages && (langFilter == 0 || langFilter == l.uid)
  {
    FilterMembers(languages, (l: LanguageRecord) => ShowsLanguage(langFilter, l), l);
  }

  /** One more language considered: it gets a column exactly when the setting shows it. */
  lemma SelectedStep(languages: seq<LanguageRecord>, j: nat, langFilter: int)
    requires j < |languages|
    ensures Selected(languages[..j + 1], langFilter) == Selected(languages[..j], langFilter)
      + (if ShowsLanguage(langFilter, languages[j]) then [languages[j]] else [])
  {
    assert languages[..j + 1][..j] == languages[..j];
  }

  /** The languages that get columns for this rendering. */
  function Columns(env: Env): seq<LanguageRecord> {
    Selected(AllowedLanguages(env.user, LiveLanguages(env.db)), env.langFilter)
  }

  // ---------------------------------------------------------- body rows

  /** The three cells of a page for one language column. */
  function LanguageCells(page: PageRecord, lang: LanguageRecord, env: Env): seq<Cell> {
    match LangStatus(env.db, page.uid, lang.uid, env.now)
    case Some(o) =>
      var s := OverlayStatus(o.hidden, page.l18nCfg, env.hideIfNotTranslated);
      [OverlayTitleCell(s, page.uid, lang.uid, o.count > 1),
       OverlayRecordCell(s, o.uid, lang.uid),
       CountCell(s, ContentElementCount(env.db, page.uid, lang.uid))]
    case None =>
      if lang.uid in env.disableLanguages(page.uid) then
        [EmptyCell(Danger), EmptyCell(Danger), InfoCell(Danger, None)]
      else
        var s := MissingStatus(page.l18nCfg, env.hideIfNotTranslated);
        [EmptyCell(s), EmptyCell(s), InfoCell(s, Some(NewOverlayKey(lang.uid, page.uid)))]
  }

  /** The three leading cells of a page row: the page and its default language. */
  function DefaultCells(page: PageRecord, env: Env): seq<Cell> {
    var s := DefaultStatus(page.l18nCfg);
    [PageCell(page.uid),
     DefaultInfoCell(s, page.uid, HideDefaultLanguage(page.l18nCfg), env.hideIfNotTranslated(page.l18nCfg)),
     CountCell(s, ContentElementCount(env.db, page.uid, 0))]
  }

  /** The language cells of a page row, three per column. */
  function LanguageColumns(page: PageRecord, cols: seq<LanguageRecord>, env: Env): seq<Cell>
    decreases |cols|
  {
    if |cols| == 0 then []
    else LanguageColumns(page, cols[..|cols| - 1], env) + LanguageCells(page, cols[|cols| - 1], env)
  }

  /** A whole body row. */
  function RowCells(page: PageRecord, cols: seq<LanguageRecord>, env: Env): seq<Cell> {
    DefaultCells(page, env) + LanguageColumns(page, cols, env)
  }

  // ---------------------------------------------- accumulated uid lists

  /** Reads an accumulator entry: PHP's unset array entry is the empty list. */
  function Get(m: map<int, seq<int>>, key: int): seq<int> {
    if key in m then m[key] else []
  }

  /** Appends to an accumulator entry, as `$m[$key][] = $x` does. */
  function Append(m: map<int, seq<int>>, key: int, x: int): (m': map<int, seq<int>>)
    ensures forall k :: Get(m', k) == if k == key then Get(m, key) + [x] else Get(m, k)
  {
    m[key := Get(m, key) + [x]]
  }

  /** What one language column of a page does to `langRecUids`: the overlay's uid goes under the language. */
  function AddOverlayUid(m: map<int, seq<int>>, page: PageRecord, lang: LanguageRecord, env: Env)
    : map<int, seq<int>>
  {
    match LangStatus(env.db, page.uid, lang.uid, env.now)
    case Some(o) => Append(m, lang.uid, o.uid)
    case None => m
  }

  /** What one language column of a page does to `newOL_js`: a fragment for the page when it gets a checkbox. */
  function AddPending(m: map<int, seq<int>>, page: PageRecord, lang: LanguageRecord, env: Env)
    : map<int, seq<int>>
  {
    if LangStatus(env.db, page.uid, lang.uid, env.now).None? && lang.uid !in env.disableLanguages(page.uid)
    then Append(m, lang.uid, page.uid)
    else m
  }

  /** `langRecUids` after the language columns `cols` of a page. */
  function RowAddUids(m: map<int, seq<int>>, page: PageRecord, cols: seq<LanguageRecord>, env: Env)
    : map<int, seq<int>>
    decreases |cols|
  {
    if |cols| == 0 then m
    else AddOverlayUid(RowAddUids(m, page, cols[..|cols| - 1], env), page, cols[|cols| - 1], env)
  }

  /** `newOL_js` after the language columns `cols` of a page. */
  function RowAddPending(m: map<int, seq<int>>, page: PageRecord, cols: seq<LanguageRecord>, env: Env)
    : map<int, seq<int>>
    decreases |cols|
  {
    if |cols| == 0 then m
    else AddPending(RowAddPending(m, page, cols[..|cols| - 1], env), page, cols[|cols| - 1], env)
  }

  /** `langRecUids` after the rows of `tree`: each row first files its page uid under 0. */
  function TreeUids(tree: seq<PageRecord>, cols: seq<LanguageRecord>, env: Env): map<int, seq<int>>
    decreases |tree|
  {
    if |tree| == 0 then map[]
    else
      var page := tree[|tree| - 1];
      RowAddUids(Append(TreeUids(tree[..|tree| - 1], cols, env), 0, page.uid), page, cols, env)
  }

  /** `newOL_js` after the rows of `tree`. */
  function TreePending(tree: seq<PageRecord>, cols: seq<LanguageRecord>, env: Env): map<int, seq<int>>
    decreases |tree|
  {
    if |tree| == 0 then map[]
    else RowAddPending(TreePending(tree[..|tree| - 1], cols, env), tree[|tree| - 1], cols, env)
  }

  /** The first-overlay uid of a page in a language, when it has one. */
  function FirstOverlay(page: PageRecord, langUid: int, env: Env): seq<int> {
    match LangStatus(env.db, page.uid, langUid, env.now)
    case Some(o) => [o.uid]
    case None => []
  }

  /** Whether a page gets the creation checkbox of a language: no overlay, and the language not disabled. */
  predicate GetsCheckbox(page: PageRecord, langUid: int, env: Env) {
    OverlayRows(env.db, page.uid, langUid) == [] && langUid !in env.disableLanguages(page.uid)
  }

  /** What one language column of a page adds under `key` to `langRecUids`. */
  function OverlayUidFor(page: PageRecord, lang: LanguageRecord, env: Env, key: int): seq<int> {
    if lang.uid != key then [] else FirstOverlay(page, lang.uid, env)
  }

  /** What one language column of a page adds under `key` to `newOL_js`, a fragment named by the page uid. */
  function PendingFor(page: PageRecord, lang: LanguageRecord, env: Env, key: int): seq<int> {
    if lang.uid == key && GetsCheckbox(page, lang.uid, env) then [page.uid] else []
  }

  function RowOverlayUids(page: PageRecord, cols: seq<LanguageRecord>, env: Env, key: int): seq<int>
    decreases |cols|
  {
    if |cols| == 0 then []
    else RowOverlayUids(page, cols[..|cols| - 1], env, key) + OverlayUidFor(page, cols[|cols| - 1], env, key)
  }

  function RowPending(page: PageRecord, cols: seq<LanguageRecord>, env: Env, key: int): seq<int>
    decreases |cols|
  {
    if |cols| == 0 then []
    else RowPending(page, cols[..|cols| - 1], env, key) + PendingFor(page, cols[|cols| - 1], env, key)
  }

  /** The list `langRecUids[key]` holds after the rows of `tree`, row by row. */
  function RecUids(tree: seq<PageRecord>, cols: seq<LanguageRecord>, env: Env, key: int): seq<int>
    decreases |tree|
  {
    if |tree| == 0 then []
    else
      var page := tree[|tree| - 1];
      RecUids(tree[..|tree| - 1], cols, env, key)
        + (if key == 0 then [page.uid] else []) + RowOverlayUids(page, cols, env, key)
  }

  /** The fragments `newOL_js[key]` holds after the rows of `tree`, one page uid per fragment. */
  function Pending(tree: seq<PageRecord>, cols: seq<LanguageRecord>, env: Env, key: int): seq<int>
    decreases |tree|
  {
    if |tree| == 0 then []
    else Pending(tree[..|tree| - 1], cols, env, key) + RowPending(tree[|tree| - 1], cols, env, key)
  }

  lemma AddOverlayUidGet(m: map<int, seq<int>>, page: PageRecord, lang: LanguageRecord, env: Env, key: int)
    ensures Get(AddOverlayUid(m, page, lang, env), key) == Get(m, key) + OverlayUidFor(page, lang, env, key)
  {
    match LangStatus(env.db, page.uid, lang.uid, env.now)
    case Some(o) =>
      assert Get(Append(m, lang.uid, o.uid), key) == if key == lang.uid then Get(m, key) + [o.uid] else Get(m, key);
    case None =>
      assert Get(m, key) + [] == Get(m, key);
  }

  lemma {:induction false} RowAddUidsGet(m: map<int, seq<int>>, page: PageRecord, cols: seq<LanguageRecord>,
                                         env: Env, key: int)
    ensures Get(RowAddUids(m, page, cols, env), key) == Get(m, key) + RowOverlayUids(page, cols, env, key)
    decreases |cols|
  {
    if |cols| > 0 {
      var init := cols[..|cols| - 1];
      RowAddUidsGet(m, page, init, env, key);
      var before := RowAddUids(m, page, init, env);
      var lang := cols[|cols| - 1];
      assert RowAddUids(m, page, cols, env) == AddOverlayUid(before, page, lang, env);
      AddOverlayUidGet(before, page, lang, env, key);
      var a, b, c := Get(m, key), RowOverlayUids(page, init, env, key), OverlayUidFor(page, lang, env, key);
      assert RowOverlayUids(page, cols, env, key) == b + c;
      assert (a + b) + c == a + (b + c);
    }
  }

  lemma AddPendingGet(m: map<int, seq<int>>, page: PageRecord, lang: LanguageRecord, env: Env, key: int)
    ensures Get(AddPending(m, page, lang, env), key) == Get(m, key) + PendingFor(page, lang, env, key)
  {
    if LangStatus(env.db, page.uid, lang.uid, env.now).None? && lang.uid !in env.disableLanguages(page.uid) {
      assert Get(Append(m, lang.uid, page.uid), key) == if key == lang.uid then Get(m, key) + [page.uid] else Get(m, key);
    } else {
      assert Get(m, key) + [] == Get(m, key);
    }
  }

  lemma {:induction false} RowAddPendingGet(m: map<int, seq<int>>, page: PageRecord, cols: seq<LanguageRecord>,
                                            env: Env, key: int)
    ensures Get(RowAddPending(m, page, cols, env), key) == Get(m, key) + RowPending(page, cols, env, key)
    decreases |cols|
  {
    if |cols| > 0 {
      var init := cols[..|cols| - 1];
      RowAddPendingGet(m, page, init, env, key);
      AddPendingGet(RowAddPending(m, page, init, env), page, cols[|cols| - 1], env, key);
    }
  }

  /** The accumulated map and the row-by-row lists agree on every key. */
  lemma {:induction false} TreeUidsGet(tree: seq<PageRecord>, cols: seq<LanguageRecord>, env: Env, key: int)
    ensures Get(TreeUids(tree, cols, env), key) == RecUids(tree, cols, env, key)
    decreases |tree|
  {
    if |tree| > 0 {
      var init := tree[..|tree| - 1];
      var page := tree[|tree| - 1];
      TreeUidsGet(init, cols, env, key);
      var seeded := Append(TreeUids(init, cols, env), 0, page.uid);
      RowAddUidsGet(seeded, page, cols, env, key);
      assert Get(seeded, key) == RecUids(init, cols, env, key) + (if key == 0 then [page.uid] else []);
    }
  }

  lemma {:induction false} TreePendingGet(tree: seq<PageRecord>, cols: seq<LanguageRecord>, env: Env, key: int)
    ensures Get(TreePending(tree, cols, env), key) == Pending(tree, cols, env, key)
    decreases |tree|
  {
    if |tree| > 0 {
      var init := tree[..|tree| - 1];
      TreePendingGet(init, cols, env, key);
      RowAddPendingGet(TreePending(init, cols, env), tree[|tree| - 1], cols, env, key);
    }
  }

  // ------------------------------------------------------------- header

  function HeaderColumns(heads: seq<LanguageRecord>, tree: seq<PageRecord>, cols: seq<LanguageRecord>, env: Env)
    : seq<HeaderCell>
    decreases |heads|
  {
    if |heads| == 0 then []
    else
      var l := heads[|heads| - 1];
      HeaderColumns(heads[..|heads| - 1], tree, cols, env)
        + [LanguageHeading(l.uid, l.title),
           OverlaysHeading(l.uid, RecUids(tree, cols, env, l.uid)),
           CreateHeading(l.uid, Pending(tree, cols, env, l.uid))]
  }

  function Header(tree: seq<PageRecord>, cols: seq<LanguageRecord>, env: Env): seq<HeaderCell> {
    [PageHeading, DefaultHeading(RecUids(tree, cols, env, 0))] + HeaderColumns(cols, tree, cols, env)
  }

  /** The body rows of the table, one per page of `tree`, in tree order. */
  function Rows(tree: seq<PageRecord>, cols: seq<LanguageRecord>, env: Env): (rows: seq<seq<Cell>>)
    ensures |rows| == |tree|
    decreases |tree|
  {
    if |tree| == 0 then []
    else Rows(tree[..|tree| - 1], cols, env) + [RowCells(tree[|tree| - 1], cols, env)]
  }

  /** Row `k` of the body is the row of the `k`-th page. */
  lemma {:induction false} RowsAt(tree: seq<PageRecord>, cols: seq<LanguageRecord>, env: Env, k: int)
    requires 0 <= k < |tree|
    ensures Rows(tree, cols, env)[k] == RowCells(tree[k], cols, env)
    decreases |tree|
  {
    if k < |tree| - 1 {
      RowsAt(tree[..|tree| - 1], cols, env, k);
    }
  }

  /** The table `renderL10nTable` produces for `tree`. */
  function L10nTable(tree: seq<PageRecord>, env: Env): Table {
    var cols := Columns(env);
    Table(Header(tree, cols, env), Rows(tree, cols, env))
  }

  // ------------------------------------------------------------ rendering

  /** The specifications of a row, extended by one language column. */
  lemma ColumnStep(page: PageRecord, before: seq<LanguageRecord>, lang: LanguageRecord, env: Env,
                   m: map<int, seq<int>>, n: map<int, seq<int>>)
    ensures RowCells(page, before + [lang], env) == RowCells(page, before, env) + LanguageCells(page, lang, env)
    ensures RowAddUids(m, page, before + [lang], env) == AddOverlayUid(RowAddUids(m, page, before, env), page, lang, env)
    ensures RowAddPending(n, page, before + [lang], env) == AddPending(RowAddPending(n, page, before, env), page, lang, env)
  {
    ColumnStepCells(page, before, lang, env);
    ColumnStepUids(page, before, lang, env, m);
    ColumnStepPending(page, before, lang, env, n);
  }

  lemma ColumnStepCells(page: PageRecord, before: seq<LanguageRecord>, lang: LanguageRecord, env: Env)
    ensures RowCells(page, before + [lang], env) == RowCells(page, before, env) + LanguageCells(page, lang, env)
  {
    assert (before + [lang])[..|before|] == before;
  }

  lemma ColumnStepUids(page: PageRecord, before: seq<LanguageRecord>, lang: LanguageRecord, env: Env,
                       m: map<int, seq<int>>)
    ensures RowAddUids(m, page, before + [lang], env) == AddOverlayUid(RowAddUids(m, page, before, env), page, lang, env)
  {
    assert (before + [lang])[..|before|] == before;
  }

  lemma ColumnStepPending(page: PageRecord, before: seq<LanguageRecord>, lang: LanguageRecord, env: Env,
                          n: map<int, seq<int>>)
    ensures RowAddPending(n, page, before + [lang], env) == AddPending(RowAddPending(n, page, before, env), page, lang, env)
  {
    assert (before + [lang])[..|before|] == before;
  }

  /**
   * One language column of one page row: its three cells, and what it adds to
   * `langRecUids` (the overlay uid) or to `newOL_js` (the checkbox fragment).
   */
  method RenderColumn(page: PageRecord, lang: LanguageRecord, env: Env, disabled: seq<int>,
                      recUids: map<int, seq<int>>, newOL: map<int, seq<int>>)
    returns (cells: seq<Cell>, recUids': map<int, seq<int>>, newOL': map<int, seq<int>>)
    requires disabled == env.disableLanguages(page.uid)
    ensures cells == LanguageCells(page, lang, env)
    ensures recUids' == AddOverlayUid(recUids, page, lang, env)
    ensures newOL' == AddPending(newOL, page, lang, env)
  {
    recUids', newOL' := recUids, newOL;
    var status: Status;
    var row := LangStatus(env.db, page.uid, lang.uid, env.now);
    if row.Some? {
      recUids' := Append(recUids', lang.uid, row.value.uid);
      status := if row.value.hidden then
          (if env.hideIfNotTranslated(page.l18nCfg) || page.l18nCfg % 2 == 1 then Danger else Neutral)
        else Success;
      cells := [OverlayTitleCell(status, page.uid, lang.uid, row.value.count > 1),
                OverlayRecordCell(status, row.value.uid, lang.uid),
                CountCell(status, ContentElementCount(env.db, page.uid, lang.uid))];
    } else {
      var info: Option<NewOverlayKey>;
      if lang.uid in disabled {
        status := Danger;
        info := None;
      } else {
        status := if env.hideIfNotTranslated(page.l18nCfg) || page.l18nCfg % 2 == 1 then Danger else Neutral;
        info := Some(NewOverlayKey(lang.uid, page.uid));
        newOL' := Append(newOL', lang.uid, page.uid);
      }
      cells := [EmptyCell(status), EmptyCell(status), InfoCell(status, info)];
    }
  }

  /** One pass of the page loop of `renderL10nTable`: a row and the two accumulators after it. */
  method RenderRow(page: PageRecord, languages: seq<LanguageRecord>, env: Env,
                   recUids: map<int, seq<int>>, newOL: map<int, seq<int>>)
    returns (cells: seq<Cell>, recUids': map<int, seq<int>>, newOL': map<int, seq<int>>)
    ensures cells == RowCells(page, Selected(languages, env.langFilter), env)
    ensures recUids' == RowAddUids(Append(recUids, 0, page.uid), page, Selected(languages, env.langFilter), env)
    ensures newOL' == RowAddPending(newOL, page, Selected(languages, env.langFilter), env)
  {
    var f := env.langFilter;
    recUids' := Append(recUids, 0, page.uid);
    ghost var seeded := recUids';
    newOL' := newOL;
    var status := if page.l18nCfg % 2 == 1 then Danger else Success;
    cells := [PageCell(page.uid),
              DefaultInfoCell(status, page.uid, page.l18nCfg % 2 == 1, env.hideIfNotTranslated(page.l18nCfg)),
              CountCell(status, ContentElementCount(env.db, page.uid, 0))];
    var disabled := env.disableLanguages(page.uid);
    ghost var cols: seq<LanguageRecord> := [];
    var j := 0;
    while j < |languages|
      invariant 0 <= j <= |languages|
      invariant cols == Selected(languages[..j], f)
      invariant cells == RowCells(page, cols, env)
      invariant recUids' == RowAddUids(seeded, page, cols, env)
      invariant newOL' == RowAddPending(newOL, page, cols, env)
    {
      var lang := languages[j];
      SelectedStep(languages, j, f);
      if f == 0 || f == lang.uid {
        ColumnStep(page, cols, lang, env, seeded, newOL);
        var more;
        more, recUids', newOL' := RenderColumn(page, lang, env, disabled, recUids', newOL');
        cells := cells + more;
        cols := cols + [lang];
      }
      j := j + 1;
    }
    assert languages[..j] == languages;
  }

  /** The specifications of the page loop, extended by one page. */
  lemma BodyStep(tree: seq<PageRecord>, i: nat, cols: seq<LanguageRecord>, env: Env)
    requires i < |tree|
    ensures Rows(tree[..i + 1], cols, env) == Rows(tree[..i], cols, env) + [RowCells(tree[i], cols, env)]
    ensures TreeUids(tree[..i + 1], cols, env)
         == RowAddUids(Append(TreeUids(tree[..i], cols, env), 0, tree[i].uid), tree[i], cols, env)
    ensures TreePending(tree[..i + 1], cols, env) == RowAddPending(TreePending(tree[..i], cols, env), tree[i], cols, env)
  {
    assert tree[..i + 1][..i] == tree[..i];
  }

  /** The page loop of `renderL10nTable`: one row per page, in tree order, and the two accumulators. */
  method RenderBody(tree: seq<PageRecord>, languages: seq<LanguageRecord>, env: Env)
    returns (body: seq<seq<Cell>>, recUids: map<int, seq<int>>, newOL: map<int, seq<int>>)
    ensures body == Rows(tree, Selected(languages, env.langFilter), env)
    ensures recUids == TreeUids(tree, Selected(languages, env.langFilter), env)
    ensures newOL == TreePending(tree, Selected(languages, env.langFilter), env)
  {
    ghost var cols := Selected(languages, env.langFilter);
    body, recUids, newOL := [], map[], map[];
    var i := 0;
    while i < |tree|
      invariant 0 <= i <= |tree|
      invariant body == Rows(tree[..i], cols, env)
      invariant recUids == TreeUids(tree[..i], cols, env)
      invariant newOL == TreePending(tree[..i], cols, env)
    {
      BodyStep(tree, i, cols, env);
      var cells;
      cells, recUids, newOL := RenderRow(tree[i], languages, env, recUids, newOL);
      body := body + [cells];
      i := i + 1;
    }
    assert tree[..i] == tree;
  }

  /** The header cells of one more shown language. */
  lemma HeaderStep(heads: seq<LanguageRecord>, lang: LanguageRecord, tree: seq<PageRecord>,
                   cols: seq<LanguageRecord>, env: Env)
    ensures HeaderColumns(heads + [lang], tree, cols, env)
         == HeaderColumns(heads, tree, cols, env)
            + [LanguageHeading(lang.uid, lang.title),
               OverlaysHeading(lang.uid, RecUids(tree, cols, env, lang.uid)),
               CreateHeading(lang.uid, Pending(tree, cols, env, lang.uid))]
  {
    assert (heads + [lang])[..|heads|] == heads;
  }

  /** The header loop of `renderL10nTable`: the edit and create links gathered by the page loop. */
  method RenderHeader(tree: seq<PageRecord>, languages: seq<LanguageRecord>, env: Env,
                      recUids: map<int, seq<int>>, newOL: map<int, seq<int>>)
    returns (header: seq<HeaderCell>)
    requires recUids == TreeUids(tree, Selected(languages, env.langFilter), env)
    requires newOL == TreePending(tree, Selected(languages, env.langFilter), env)
    ensures header == Header(tree, Selected(languages, env.langFilter), env)
  {
    var f := env.langFilter;
    ghost var cols := Selected(languages, f);
    TreeUidsGet(tree, cols, env, 0);
    var columns: seq<HeaderCell> := [];
    ghost var heads: seq<LanguageRecord> := [];
    var j := 0;
    while j < |languages|
      invariant 0 <= j <= |languages|
      invariant heads == Selected(languages[..j], f)
      invariant columns == HeaderColumns(heads, tree, cols, env)
    {
      var lang := languages[j];
      SelectedStep(languages, j, f);
      if f == 0 || f == lang.uid {
        HeaderStep(heads, lang, tree, cols, env);
        TreeUidsGet(tree, cols, env, lang.uid);
        TreePendingGet(tree, cols, env, lang.uid);
        columns := columns + [LanguageHeading(lang.uid, lang.title),
                              OverlaysHeading(lang.uid, Get(recUids, lang.uid)),
                              CreateHeading(lang.uid, Get(newOL, lang.uid))];
        heads := heads + [lang];
      }
      j := j + 1;
    }
    assert languages[..j] == languages;
    header := [PageHeading, DefaultHeading(Get(recUids, 0))] + columns;
  }

  /** `renderL10nTable`: the body rows in tree order, then the header built from the accumulators. */
  method RenderL10nTable(tree: seq<PageRecord>, env: Env) returns (t: Table)
    ensures t == L10nTable(tree, env)
  {
    var languages := SystemLanguages(env.user, env.db);
    var body, recUids, newOL := RenderBody(tree, languages, env);
    var header := RenderHeader(tree, languages, env, recUids, newOL);
    t := Table(header, body);
  }

  // ----------------------------------------------------------- properties

  /**
   * The three cells of a (page, language) pair share one status class. It is
   * `success` exactly for an overlay that is not hidden now, and `danger`
   * exactly for a missing overlay of a language disabled on the page, or for a
   * hidden or missing overlay on a page that hides untranslated or default
   * content.
   */
  lemma LanguageCellsStatus(page: PageRecord, lang: LanguageRecord, env: Env)
    ensures var cells := LanguageCells(page, lang, env);
      var rows := OverlayRows(env.db, page.uid, lang.uid);
      var strict := env.hideIfNotTranslated(page.l18nCfg) || page.l18nCfg % 2 == 1;
      |cells| == 3 && !cells[0].PageCell? && !cells[1].PageCell? && !cells[2].PageCell?
      && cells[1].status == cells[0].status && cells[2].status == cells[0].status
      && (cells[0].status == Success <==> rows != [] && !EffectivelyHidden(rows[0], env.now))
      && (cells[0].status == Danger <==>
            (rows == [] && lang.uid in env.disableLanguages(page.uid))
            || ((rows == [] || EffectivelyHidden(rows[0], env.now)) && strict))
  {
  }

  /**
   * A pair with an overlay links to the page in that language and to the first
   * overlay row, flags a duplicate exactly when there is more than one row,
   * counts the content of that language, and carries no checkbox.
   */
  lemma ExistingOverlayCells(page: PageRecord, lang: LanguageRecord, env: Env)
    requires OverlayRows(env.db, page.uid, lang.uid) != []
    ensures var cells := LanguageCells(page, lang, env);
      var rows := OverlayRows(env.db, page.uid, lang.uid);
      |cells| == 3
      && cells[0].OverlayTitleCell? && cells[0].pageUid == page.uid && cells[0].langUid == lang.uid
      && (cells[0].duplicate <==> |rows| > 1)
      && cells[1].OverlayRecordCell? && cells[1].overlayUid == rows[0].uid
      && cells[2] == CountCell(cells[0].status, ContentElementCount(env.db, page.uid, lang.uid))
      && cells[0].HasEditLink() && cells[1].HasEditLink()
    ensures OverlayUidFor(page, lang, env, lang.uid) == [OverlayRows(env.db, page.uid, lang.uid)[0].uid]
    ensures PendingFor(page, lang, env, lang.uid) == []
  {
  }

  /**
   * A pair without an overlay has no edit link. It carries the checkbox
   * `newOL[lang][page]` and adds one fragment for the page under its language
   * exactly when the language is not disabled on the page; a disabled one is
   * `danger` and adds nothing.
   */
  lemma MissingOverlayCells(page: PageRecord, lang: LanguageRecord, env: Env)
    requires OverlayRows(env.db, page.uid, lang.uid) == []
    ensures var cells := LanguageCells(page, lang, env);
      var enabled := lang.uid !in env.disableLanguages(page.uid);
      |cells| == 3 && (forall c :: c in cells ==> !c.HasEditLink())
      && cells[2].InfoCell?
      && (cells[2].checkbox.Some? <==> enabled)
      && (enabled ==> cells[2].checkbox == Some(NewOverlayKey(lang.uid, page.uid)))
      && (!enabled ==> cells[2].status == Danger)
      && PendingFor(page, lang, env, lang.uid) == (if enabled then [page.uid] else [])
    ensures OverlayUidFor(page, lang, env, lang.uid) == []
  {
  }

  /** A language column only ever adds under its own uid. */
  lemma ColumnKeys(page: PageRecord, lang: LanguageRecord, env: Env, key: int)
    requires key != lang.uid
    ensures OverlayUidFor(page, lang, env, key) == [] && PendingFor(page, lang, env, key) == []
  {
  }

  lemma {:induction false} LanguageColumnsLength(page: PageRecord, cols: seq<LanguageRecord>, env: Env)
    ensures |LanguageColumns(page, cols, env)| == 3 * |cols|
    decreases |cols|
  {
    if |cols| > 0 {
      LanguageColumnsLength(page, cols[..|cols| - 1], env);
    }
  }

  /** The cells of column `j` are the three cells of the `j`-th shown language. */
  lemma {:induction false} LanguageColumnsAt(page: PageRecord, cols: seq<LanguageRecord>, env: Env, j: nat)
    requires j < |cols|
    ensures |LanguageColumns(page, cols, env)| == 3 * |cols|
    ensures LanguageColumns(page, cols, env)[3 * j..3 * j + 3] == LanguageCells(page, cols[j], env)
    decreases |cols|
  {
    var init := cols[..|cols| - 1];
    LanguageColumnsLength(page, cols, env);
    LanguageColumnsLength(page, init, env);
    if j < |cols| - 1 {
      LanguageColumnsAt(page, init, env, j);
      var prefix := LanguageColumns(page, init, env);
      assert LanguageColumns(page, cols, env)[3 * j..3 * j + 3] == prefix[3 * j..3 * j + 3];
    }
  }

  /**
   * A body row is the page cell and the two default-language cells, then three
   * cells per shown language, in column order.
   */
  lemma RowShape(page: PageRecord, cols: seq<LanguageRecord>, env: Env)
    ensures |RowCells(page, cols, env)| == 3 + 3 * |cols|
    ensures RowCells(page, cols, env)[..3] == DefaultCells(page, env)
    ensures forall j :: 0 <= j < |cols| ==>
              RowCells(page, cols, env)[3 + 3 * j..6 + 3 * j] == LanguageCells(page, cols[j], env)
  {
    LanguageColumnsLength(page, cols, env);
    var row := RowCells(page, cols, env);
    forall j | 0 <= j < |cols|
      ensures row[3 + 3 * j..6 + 3 * j] == LanguageCells(page, cols[j], env)
    {
      LanguageColumnsAt(page, cols, env, j);
      assert row[3 + 3 * j..6 + 3 * j] == LanguageColumns(page, cols, env)[3 * j..3 * j + 3];
    }
  }

  lemma {:induction false} HeaderColumnsLength(heads: seq<LanguageRecord>, tree: seq<PageRecord>,
                                               cols: seq<LanguageRecord>, env: Env)
    ensures |HeaderColumns(heads, tree, cols, env)| == 3 * |heads|
    decreases |heads|
  {
    if |heads| > 0 {
      HeaderColumnsLength(heads[..|heads| - 1], tree, cols, env);
    }
  }

  /** The header cells of a shown language: its title, its overlays' edit link, its create link. */
  function LanguageHeader(lang: LanguageRecord, tree: seq<PageRecord>, cols: seq<LanguageRecord>, env: Env)
    : seq<HeaderCell>
  {
    [LanguageHeading(lang.uid, lang.title),
     OverlaysHeading(lang.uid, RecUids(tree, cols, env, lang.uid)),
     CreateHeading(lang.uid, Pending(tree, cols, env, lang.uid))]
  }

  lemma {:induction false} HeaderColumnsAt(heads: seq<LanguageRecord>, tree: seq<PageRecord>,
                                           cols: seq<LanguageRecord>, env: Env, j: nat)
    requires j < |heads|
    ensures |HeaderColumns(heads, tree, cols, env)| == 3 * |heads|
    ensures HeaderColumns(heads, tree, cols, env)[3 * j..3 * j + 3] == LanguageHeader(heads[j], tree, cols, env)
    decreases |heads|
  {
    var init := heads[..|heads| - 1];
    HeaderColumnsLength(heads, tree, cols, env);
    HeaderColumnsLength(init, tree, cols, env);
    if j < |heads| - 1 {
      HeaderColumnsAt(init, tree, cols, env, j);
      var prefix := HeaderColumns(init, tree, cols, env);
      assert HeaderColumns(heads, tree, cols, env)[3 * j..3 * j + 3] == prefix[3 * j..3 * j + 3];
    }
  }

  /** The body: one row per page in tree order, each with three cells per shown language. */
  lemma TableBody(tree: seq<PageRecord>, env: Env)
    ensures var t := L10nTable(tree, env);
      |t.body| == |tree|
      && (forall k :: 0 <= k < |tree| ==> t.body[k] == RowCells(tree[k], Columns(env), env))
      && (forall k :: 0 <= k < |tree| ==> |t.body[k]| == 3 + 3 * |Columns(env)|)
  {
    var body := L10nTable(tree, env).body;
    var cols := Columns(env);
    forall k | 0 <= k < |tree|
      ensures body[k] == RowCells(tree[k], cols, env) && |body[k]| == 3 + 3 * |cols|
    {
      RowsAt(tree, cols, env, k);
      RowShape(tree[k], cols, env);
    }
  }

  /** The header: the page and default headings, then three headings per shown language, in column order. */
  lemma HeaderShape(tree: seq<PageRecord>, cols: seq<LanguageRecord>, env: Env)
    ensures var h := Header(tree, cols, env);
      |h| == 2 + 3 * |cols|
      && h[..2] == [PageHeading, DefaultHeading(RecUids(tree, cols, env, 0))]
      && (forall j :: 0 <= j < |cols| ==> h[2 + 3 * j..5 + 3 * j] == LanguageHeader(cols[j], tree, cols, env))
  {
    var h := Header(tree, cols, env);
    var columns := HeaderColumns(cols, tree, cols, env);
    HeaderColumnsLength(cols, tree, cols, env);
    forall j | 0 <= j < |cols|
      ensures h[2 + 3 * j..5 + 3 * j] == LanguageHeader(cols[j], tree, cols, env)
    {
      HeaderColumnsAt(cols, tree, cols, env, j);
      assert h[2 + 3 * j..5 + 3 * j] == columns[3 * j..3 * j + 3];
    }
  }

  /**
   * The table of a rendering: the same shown languages give every body row
   * three cells each and the header three headings each, in the same order.
   */
  lemma TableShape(tree: seq<PageRecord>, env: Env)
    ensures var t := L10nTable(tree, env);
      var cols := Columns(env);
      |t.body| == |tree| && |t.header| == 2 + 3 * |cols|
      && (forall k :: 0 <= k < |tree| ==> |t.body[k]| == 3 + 3 * |cols|)
      && (forall j :: 0 <= j < |cols| ==>
            t.header[2 + 3 * j..5 + 3 * j] == LanguageHeader(cols[j], tree, cols, env))
  {
    TableBody(tree, env);
    HeaderShape(tree, Columns(env), env);
  }

  /**
   * A language gets columns exactly when it is live, the user may see it, and
   * the `SET[lang]` setting is 0 or its uid.
   */
  lemma ColumnsMembers(env: Env, l: LanguageRecord)
    ensures l in Columns(env) <==>
      l in env.db.languages && !l.deleted
      && (!Restricted(env.user) || l.uid in env.user.allowedLanguages)
      && (env.langFilter == 0 || env.langFilter == l.uid)
  {
    var live := LiveLanguages(env.db);
    var allowed := AllowedLanguages(env.user, live);
    SelectedLanguages(allowed, env.langFilter, l);
    FilterMembers(live, (l: LanguageRecord) => !Restricted(env.user) || l.uid in env.user.allowedLanguages, l);
    FilterMembers(env.db.languages, (l: LanguageRecord) => !l.deleted, l);
  }

  /** The uids of the pages of `tree`, in tree order. */
  function PageUids(tree: seq<PageRecord>): (r: seq<int>)
    ensures |r| == |tree| && forall k :: 0 <= k < |tree| ==> r[k] == tree[k].uid
    decreases |tree|
  {
    if |tree| == 0 then [] else PageUids(tree[..|tree| - 1]) + [tree[|tree| - 1].uid]
  }

  lemma {:induction false} RowOverlayUidsAbsent(page: PageRecord, cols: seq<LanguageRecord>, env: Env, key: int)
    requires forall l :: l in cols ==> l.uid != key
    ensures RowOverlayUids(page, cols, env, key) == []
    ensures RowPending(page, cols, env, key) == []
    decreases |cols|
  {
    if |cols| > 0 {
      var init := cols[..|cols| - 1];
      assert forall l :: l in init ==> l in cols;
      RowOverlayUidsAbsent(page, init, env, key);
    }
  }

  /** Unless a shown language has uid 0, `langRecUids[0]` lists every page uid of the tree in tree order. */
  lemma {:induction false} RecUidsDefault(tree: seq<PageRecord>, cols: seq<LanguageRecord>, env: Env)
    requires forall l :: l in cols ==> l.uid != 0
    ensures RecUids(tree, cols, env, 0) == PageUids(tree)
    decreases |tree|
  {
    if |tree| > 0 {
      RecUidsDefault(tree[..|tree| - 1], cols, env);
      RowOverlayUidsAbsent(tree[|tree| - 1], cols, env, 0);
    }
  }

  /** The uids of the first overlays in `langUid` of the pages of `tree` that have one, in tree order. */
  function OverlayUids(tree: seq<PageRecord>, langUid: int, env: Env): seq<int>
    decreases |tree|
  {
    if |tree| == 0 then []
    else OverlayUids(tree[..|tree| - 1], langUid, env) + FirstOverlay(tree[|tree| - 1], langUid, env)
  }

  /** Whether a page has an overlay in a language. */
  predicate HasOverlay(page: PageRecord, langUid: int, env: Env) {
    OverlayRows(env.db, page.uid, langUid) != []
  }

  /** The pages of `tree` that get a creation checkbox for `langUid`, in tree order. */
  function PendingPages(tree: seq<PageRecord>, langUid: int, env: Env): seq<int>
    decreases |tree|
  {
    if |tree| == 0 then []
    else
      var page := tree[|tree| - 1];
      PendingPages(tree[..|tree| - 1], langUid, env) + (if GetsCheckbox(page, langUid, env) then [page.uid] else [])
  }

  /** Whether no two shown languages share a uid. */
  predicate DistinctUids(cols: seq<LanguageRecord>) {
    forall i, j :: 0 <= i < j < |cols| ==> cols[i].uid != cols[j].uid
  }

  lemma {:induction false} RowOverlayUidsUnique(page: PageRecord, cols: seq<LanguageRecord>, env: Env, j: nat)
    requires j < |cols| && DistinctUids(cols)
    ensures RowOverlayUids(page, cols, env, cols[j].uid) == FirstOverlay(page, cols[j].uid, env)
    ensures RowPending(page, cols, env, cols[j].uid) == if GetsCheckbox(page, cols[j].uid, env) then [page.uid] else []
    decreases |cols|
  {
    var init := cols[..|cols| - 1];
    var key := cols[j].uid;
    if j == |cols| - 1 {
      forall l | l in init
        ensures l.uid != key
      {
        var i :| 0 <= i < |init| && init[i] == l;
        assert cols[i] == l;
      }
      RowOverlayUidsAbsent(page, init, env, key);
    } else {
      assert init[j] == cols[j];
      RowOverlayUidsUnique(page, init, env, j);
    }
  }

  /**
   * For a shown language whose uid is not 0 and not shared, `langRecUids` lists
   * the first-overlay uid of exactly the pages with an overlay in it, in tree
   * order, and `newOL_js` gets a fragment for exactly the pages with a checkbox.
   */
  lemma {:induction false} RecUidsLanguage(tree: seq<PageRecord>, cols: seq<LanguageRecord>, env: Env, j: nat)
    requires j < |cols| && DistinctUids(cols) && cols[j].uid != 0
    ensures RecUids(tree, cols, env, cols[j].uid) == OverlayUids(tree, cols[j].uid, env)
    ensures Pending(tree, cols, env, cols[j].uid) == PendingPages(tree, cols[j].uid, env)
    decreases |tree|
  {
    if |tree| > 0 {
      RecUidsLanguage(tree[..|tree| - 1], cols, env, j);
      RowOverlayUidsUnique(tree[|tree| - 1], cols, env, j);
    }
  }

  /** A page with an overlay in the language puts its first overlay's uid into the list. */
  lemma {:induction false} OverlayUidsHas(tree: seq<PageRecord>, langUid: int, env: Env, k: nat)
    requires k < |tree| && HasOverlay(tree[k], langUid, env)
    ensures OverlayUids(tree, langUid, env) != []
    decreases |tree|
  {
    var init := tree[..|tree| - 1];
    if k < |init| {
      assert init[k] == tree[k];
      OverlayUidsHas(init, langUid, env, k);
    } else {
      assert FirstOverlay(tree[k], langUid, env) != [];
    }
  }

  /** A non-empty list comes from a page with an overlay in the language. */
  lemma {:induction false} OverlayUidsWitness(tree: seq<PageRecord>, langUid: int, env: Env)
    requires OverlayUids(tree, langUid, env) != []
    ensures exists k :: 0 <= k < |tree| && HasOverlay(tree[k], langUid, env)
    decreases |tree|
  {
    var init := tree[..|tree| - 1];
    if OverlayUids(init, langUid, env) != [] {
      OverlayUidsWitness(init, langUid, env);
      var k :| 0 <= k < |init| && HasOverlay(init[k], langUid, env);
      assert tree[k] == init[k];
    } else {
      assert FirstOverlay(tree[|tree| - 1], langUid, env) != [];
      assert HasOverlay(tree[|tree| - 1], langUid, env);
    }
  }

  /** The overlays' edit link of a language exists exactly when some page of the tree has an overlay in it. */
  lemma OverlayUidsNonEmpty(tree: seq<PageRecord>, langUid: int, env: Env)
    ensures OverlayUids(tree, langUid, env) != [] <==> exists k :: 0 <= k < |tree| && HasOverlay(tree[k], langUid, env)
  {
    if OverlayUids(tree, langUid, env) != [] {
      OverlayUidsWitness(tree, langUid, env);
    } else if k :| 0 <= k < |tree| && HasOverlay(tree[k], langUid, env) {
      OverlayUidsHas(tree, langUid, env, k);
    }
  }

  /**
   * The header's overlays cell of the `j`-th shown language (uid not 0 and not
   * shared) opens the first overlays of the tree, and so has an edit link
   * exactly when some page of the tree has an overlay in that language.
   */
  lemma HeaderOverlaysLink(tree: seq<PageRecord>, cols: seq<LanguageRecord>, env: Env, j: nat)
    requires j < |cols| && DistinctUids(cols) && cols[j].uid != 0
    ensures |Header(tree, cols, env)| == 2 + 3 * |cols|
    ensures Header(tree, cols, env)[3 + 3 * j] == OverlaysHeading(cols[j].uid, OverlayUids(tree, cols[j].uid, env))
    ensures Header(tree, cols, env)[3 + 3 * j].editUids != [] <==>
      exists k :: 0 <= k < |tree| && HasOverlay(tree[k], cols[j].uid, env)
  {
    HeaderShape(tree, cols, env);
    var h := Header(tree, cols, env);
    assert h[3 + 3 * j] == h[2 + 3 * j..5 + 3 * j][1];
    RecUidsLanguage(tree, cols, env, j);
    OverlayUidsNonEmpty(tree, cols[j].uid, env);
  }

  /** A page uid is pending for a language exactly when a page of the tree with that uid gets its checkbox. */
  lemma {:induction false} PendingPagesMembers(tree: seq<PageRecord>, langUid: int, env: Env, x: int)
    ensures x in PendingPages(tree, langUid, env) <==>
      exists k :: 0 <= k < |tree| && tree[k].uid == x && GetsCheckbox(tree[k], langUid, env)
    decreases |tree|
  {
    if |tree| > 0 {
      var init := tree[..|tree| - 1];
      var last := tree[|tree| - 1];
      var added := if GetsCheckbox(last, langUid, env) then [last.uid] else [];
      PendingPagesMembers(init, langUid, env, x);
      assert PendingPages(tree, langUid, env) == PendingPages(init, langUid, env) + added;
      if x in PendingPages(tree, langUid, env) {
        if x in PendingPages(init, langUid, env) {
          var k :| 0 <= k < |init| && init[k].uid == x && GetsCheckbox(init[k], langUid, env);
          assert tree[k] == init[k];
        } else {
          assert tree[|tree| - 1].uid == x && GetsCheckbox(tree[|tree| - 1], langUid, env);
        }
      } else {
        forall k | 0 <= k < |tree|
          ensures !(tree[k].uid == x && GetsCheckbox(tree[k], langUid, env))
        {
          if k < |init| {
            assert tree[k] == init[k];
          }
        }
      }
    }
  }

  /** The page list of `main`: the starting page, then the subtree when the depth is not 0. */
  function SeedTree(root: PageRecord, depth: int, subtree: seq<PageRecord>): seq<PageRecord> {
    [root] + (if depth != 0 then subtree else [])
  }

  /**
   * The table of `main` always starts with the row of the starting page, and
   * the subtree's rows follow, in their order, exactly when the depth is not 0.
   */
  lemma SeedTreeRows(root: PageRecord, depth: int, subtree: seq<PageRecord>, cols: seq<LanguageRecord>, env: Env)
    ensures var body := Rows(SeedTree(root, depth, subtree), cols, env);
      |body| == (if depth == 0 then 1 else 1 + |subtree|)
      && body[0] == RowCells(root, cols, env)
      && (depth != 0 ==> forall k :: 0 <= k < |subtree| ==> body[k + 1] == RowCells(subtree[k], cols, env))
  {
    var tree := SeedTree(root, depth, subtree);
    RowsAt(tree, cols, env, 0);
    if depth != 0 {
      forall k | 0 <= k < |subtree|
        ensures Rows(tree, cols, env)[k + 1] == RowCells(subtree[k], cols, env)
      {
        RowsAt(tree, cols, env, k + 1);
      }
    }
  }

  /**
   * `main`: nothing without a page id; otherwise the table over the starting
   * page followed, for a depth other than 0, by the pages `getTree` delivers.
   */
  method MainContent(id: int, depth: int, root: PageRecord, subtree: seq<PageRecord>, env: Env)
    returns (table: Option<Table>)
    ensures id == 0 ==> table == None
    ensures id != 0 ==> table.Some? && table.value == L10nTable(SeedTree(root, depth, subtree), env)
    ensures id != 0 ==> |table.value.body| == (if depth == 0 then 1 else 1 + |subtree|)
    ensures id != 0 ==> table.value.body[0] == RowCells(root, Columns(env), env)
    ensures id != 0 && depth != 0 ==>
      forall k :: 0 <= k < |subtree| ==> table.value.body[k + 1] == RowCells(subtree[k], Columns(env), env)
  {
    if id == 0 {
      return None;
    }
    var tree: seq<PageRecord> := [];
    tree := tree + [root];
    if depth != 0 {
      tree := tree + subtree;
    }
    assert tree == SeedTree(root, depth, subtree);
    var t := RenderL10nTable(tree, env);
    SeedTreeRows(root, depth, subtree, Columns(env), env);
    table := Some(t);
  }
}
