# TYPO3 translation status and folder creation, modelled in Dafny

This project models two backend controllers of TYPO3 CMS 7.6 and proves properties of the model.

**The translation-status matrix of the Web > Info module** (`TranslationStatusController`).
- It lists a page tree: the starting page, then the pages of the subtree when the depth setting is not 0.
- Each page gets one row. The row has three cells for the default language. It then has three cells for every system language that the user may see and that the `SET[lang]` setting shows.
- A (page, language) pair is classified three ways:
  - the translation overlay exists: status `success`, `danger` or none, edit links, and a duplicate notice;
  - the language is disabled for the page: `danger`, with no checkbox;
  - the overlay is missing: a creation checkbox `newOL[lang][page]` and a script fragment for the header's create link.
- While the rows are rendered, the controller collects two lists (`langRecUids` and `newOL_js`):
  - the page uids, filed under language 0;
  - per language, the uids of the first overlays;
  - per language, the pages that got a checkbox.

  The header's edit and create links are built from these lists.

**The "create new folder" screen of the file list** (`CreateFolderController`).
- `init` reads the request and resolves the target folder. It raises `RuntimeException` 1294586845 when there is no folder, and `InsufficientFolderAccessPermissionsException` 1375889838 for a folder on the null storage.
- `main` builds the page:
  - a new-folder form with a 1..10 selector, with the requested number clamped;
  - one input group per new folder;
  - an online-media form and a text-file form, each listing the file extensions that pass the deny pattern;
  - a back button.

  Each form appears only when its permission holds.

Files:
- `util.dfy` (module `Util`): `Option`, and an order-preserving `Filter` with its lemmas. `Filter` stands for every SQL `WHERE` clause and every `foreach … if (…) $out[] = …` loop.
- `translation_status.dfy` (module `TranslationStatus`):
  - the records, database and environment as values;
  - the pure status rules;
  - specification functions for the rows, the header and the accumulated lists;
  - imperative methods that do what the PHP loops do, each proved equal to those functions;
  - the lemmas.
- `create_folder.dfy` (module `CreateFolder`):
  - the class `CreateFolderController`, with its fields and the methods `Init` and `MainContent`;
  - the loop methods for options, input groups and extension lists;
  - the specification of the page sections and the lemmas about them.

Collaborators whose code is not part of this model are inputs:
- `hideIfNotTranslated` and the page's `disableLanguages` list are function-typed fields of `TranslationStatus.Env`.
- `sanitizeLocalUrl` and the folder resolution are parameters of `Init`.
- The deny-pattern test and the two extension lists are the `CreateFolder.Services` value.
- The request time `EXEC_TIME` is `Env.now`.
- The database tables are sequences of records in query order. A `deleted` flag stands for `deleteClause`.

The model follows the code in three details that are easy to misread:
- The code clamps `$this->number` only inside the branch where `checkActionPermission('add')` holds (line 158-161). Without that permission the number stays as requested; nothing reads it afterwards.
- The target check and the back button test PHP truth values of strings (`if ($combinedIdentifier)`, `if ($this->returnUrl)`), not non-emptiness. The string `"0"` counts as false, like the empty string (`CreateFolder.Truthy`).
- The lists of header uids are per-language arrays filed by uid. A shown language with uid 0 would add its overlays to the default-language list, and two languages with the same uid would share one list. The model keeps that behaviour. The clean statements (`RecUidsDefault`, `RecUidsLanguage`) assume that no shown language has uid 0 and that uids are distinct.

## Model

| member | source | states |
|---|---|---|
| `TranslationStatus.ModMenu` | typo3/sysext/frontend/Classes/Controller/TranslationStatusController.php:47-69 | The depth choices are 0, 1, 2, 3, 4, 999, in that order. The language menu is the ordered array that starts as `0 => [All]` and then gets one assignment per language returned by `getSystemLanguages`, in query order. |
| `TranslationStatus.LanguageMenuKeys` | typo3/sysext/frontend/Classes/Controller/TranslationStatusController.php:62-67 | The menu has an entry for a key iff the key is 0 or the uid of one of the languages. |
| `TranslationStatus.LanguageMenuTitle` | typo3/sysext/frontend/Classes/Controller/TranslationStatusController.php:65-67 | A language's uid shows its title unless a later language has the same uid (a later assignment wins). |
| `TranslationStatus.LanguageMenuAll` | typo3/sysext/frontend/Classes/Controller/TranslationStatusController.php:62-67 | Without a language of uid 0, the first entry is `0 => [All]`. |
| `TranslationStatus.LanguageMenuOrder` | typo3/sysext/frontend/Classes/Controller/TranslationStatusController.php:62-67 | The menu always starts with the key 0. Its keys, in order, are 0 and then the language uids in query order, each at its first occurrence: a repeated uid keeps the position of its first language. |
| `TranslationStatus.AssignKeys` | typo3/sysext/frontend/Classes/Controller/TranslationStatusController.php:66 | Assigning to an ordered array keeps the key order. A key that is not yet present is appended at the end. |
| `TranslationStatus.AssignLookup` | typo3/sysext/frontend/Classes/Controller/TranslationStatusController.php:66 | After an assignment, the assigned key shows the new title and every other key keeps its old one. |
| `TranslationStatus.SystemLanguages` | typo3/sysext/frontend/Classes/Controller/TranslationStatusController.php:326-344 | For a non-admin user with a non-empty allow-list, the result is exactly the live languages whose uid is in the list. Otherwise it is all live languages. Either way it is in query order (a `Filter`). |
| `TranslationStatus.LangStatus` | typo3/sysext/frontend/Classes/Controller/TranslationStatusController.php:353-370 | None exactly when no overlay row matches. Otherwise: the first row's uid; `_COUNT` equals the number of matching rows (at least 1); `_HIDDEN` holds iff the flag is set, or `endtime > 0 && endtime < now`, or `now < starttime`. |
| `TranslationStatus.ContentElementCount` | typo3/sysext/frontend/Classes/Controller/TranslationStatusController.php:379-383 | `-` exactly when no content row matches. Otherwise it is the number of rows, which is positive. |
| `TranslationStatus.DefaultStatus` | typo3/sysext/frontend/Classes/Controller/TranslationStatusController.php:150 | The default-language status is `danger` iff bit 1 of `l18n_cfg` is set, and `success` otherwise. |
| `TranslationStatus.MissingStatus` | typo3/sysext/frontend/Classes/Controller/TranslationStatusController.php:222 | A missing overlay on an enabled language is never `success`. It is `danger` iff `hideIfNotTranslated(l18n_cfg)` holds or bit 1 is set. |
| `TranslationStatus.OverlayStatus` | typo3/sysext/frontend/Classes/Controller/TranslationStatusController.php:182 | An existing overlay is `success` iff it is not hidden. When hidden, it gets the same status as a missing overlay. |
| `TranslationStatus.LanguageCellsStatus` | typo3/sysext/frontend/Classes/Controller/TranslationStatusController.php:176-237 | The three cells of a pair share one status. It is `success` iff an overlay exists and is not hidden now. It is `danger` iff the overlay is missing and the language is disabled, or the overlay is hidden or missing on a page that hides untranslated or default content. |
| `TranslationStatus.ExistingOverlayCells` | typo3/sysext/frontend/Classes/Controller/TranslationStatusController.php:180-215 | With an overlay, the cells link to the page in that language and to the first overlay row. The duplicate notice appears iff there is more than one row, the content count is for that language, the overlay uid is collected, and no fragment is added. |
| `TranslationStatus.MissingOverlayCells` | typo3/sysext/frontend/Classes/Controller/TranslationStatusController.php:216-235 | Without an overlay, no cell has an edit link. The checkbox `newOL[lang][page]` and exactly one fragment for the page appear iff the language is not disabled. A disabled language is `danger` and adds nothing. |
| `TranslationStatus.ColumnKeys` | typo3/sysext/frontend/Classes/Controller/TranslationStatusController.php:181-224 | A language column adds to the two lists only under its own uid. |
| `TranslationStatus.RenderColumn` | typo3/sysext/frontend/Classes/Controller/TranslationStatusController.php:178-235 | One pass of the language loop for a shown language. It gives that pair's three cells, adds the overlay uid to `langRecUids`, or adds the fragment to `newOL_js`. |
| `TranslationStatus.RenderRow` | typo3/sysext/frontend/Classes/Controller/TranslationStatusController.php:131-242 | One pass of the page loop. It files the page uid under 0 and gives the default cells followed by the cells of every language the filter shows, in language order. Both lists are extended column by column. |
| `TranslationStatus.RenderBody` | typo3/sysext/frontend/Classes/Controller/TranslationStatusController.php:128-243 | The page loop gives one row per page in tree order, and the two lists as they stand after the last row. |
| `TranslationStatus.RenderHeader` | typo3/sysext/frontend/Classes/Controller/TranslationStatusController.php:244-303 | The header has the page heading, and the default heading with the uids of `langRecUids[0]`. Then, for every shown language, it has its title, its overlays' edit link over `langRecUids[lang]`, and its create link over `newOL_js[lang]`. |
| `TranslationStatus.RenderL10nTable` | typo3/sysext/frontend/Classes/Controller/TranslationStatusController.php:119-319 | The rendered table equals the specification `L10nTable`: the header and the rows, both built over the same shown languages. |
| `TranslationStatus.TreeUidsGet` | typo3/sysext/frontend/Classes/Controller/TranslationStatusController.php:132-181 | For every key, the accumulated `langRecUids` equals the row-by-row list `RecUids`. |
| `TranslationStatus.TreePendingGet` | typo3/sysext/frontend/Classes/Controller/TranslationStatusController.php:224-230 | For every key, the accumulated `newOL_js` equals the row-by-row list `Pending`. |
| `TranslationStatus.ColumnsMembers` | typo3/sysext/frontend/Classes/Controller/TranslationStatusController.php:177 | A language gets columns iff it is live, the user may see it, and the `SET[lang]` setting is 0 or equals its uid. |
| `TranslationStatus.RowShape` | typo3/sysext/frontend/Classes/Controller/TranslationStatusController.php:130-237 | Every body row has 3 + 3·k cells. The first three are the default cells, and cells 3+3j .. 5+3j are the three cells of the j-th shown language. |
| `TranslationStatus.LanguageColumnsAt` | typo3/sysext/frontend/Classes/Controller/TranslationStatusController.php:176-237 | The language part of a row has three cells per shown language. Column j holds the cells of the j-th shown language. |
| `TranslationStatus.HeaderShape` | typo3/sysext/frontend/Classes/Controller/TranslationStatusController.php:244-303 | The header has 2 + 3·k cells. Headings 2+3j .. 4+3j belong to the j-th shown language. |
| `TranslationStatus.TableBody` | typo3/sysext/frontend/Classes/Controller/TranslationStatusController.php:130-243 | The table has one row per page, in tree order. Each row has 3 + 3·k cells for the k shown languages. |
| `TranslationStatus.TableShape` | typo3/sysext/frontend/Classes/Controller/TranslationStatusController.php:176-177 | The same filter decides the body columns and the header columns. The body rows and the header cover the same languages in the same order. |
| `TranslationStatus.RecUidsDefault` | typo3/sysext/frontend/Classes/Controller/TranslationStatusController.php:132 | `langRecUids[0]` lists every page uid of the tree, in tree order, when no shown language has uid 0. |
| `TranslationStatus.RecUidsLanguage` | typo3/sysext/frontend/Classes/Controller/TranslationStatusController.php:181-230 | For a shown language with a uid that is non-zero and not shared, `langRecUids[lang]` lists the first-overlay uids of the pages with an overlay, and `newOL_js[lang]` lists the pages with a checkbox, both in tree order. |
| `TranslationStatus.OverlayUidsNonEmpty` | typo3/sysext/frontend/Classes/Controller/TranslationStatusController.php:181-215 | A language's list of first-overlay uids is non-empty iff some page of the tree has an overlay in that language. |
| `TranslationStatus.HeaderOverlaysLink` | typo3/sysext/frontend/Classes/Controller/TranslationStatusController.php:272-288 | For a shown language with a non-zero, unshared uid, the header's overlays cell opens exactly the first overlays of the tree. Its edit link therefore exists iff some page of the tree has an overlay in that language. |
| `TranslationStatus.PendingPagesMembers` | typo3/sysext/frontend/Classes/Controller/TranslationStatusController.php:216-230 | A page uid is in a language's pending list iff a page of the tree with that uid gets the checkbox for it. |
| `TranslationStatus.SeedTreeRows` | typo3/sysext/frontend/Classes/Controller/TranslationStatusController.php:99-106 | The table always starts with the row of the starting page. The subtree's rows follow, in order, exactly when the depth is not 0. |
| `TranslationStatus.MainContent` | typo3/sysext/frontend/Classes/Controller/TranslationStatusController.php:76-111 | Page id 0 gives no table. Otherwise the table is rendered over the starting page plus, for a depth other than 0, the given subtree. |
| `CreateFolder.ErrorCode` | typo3/sysext/backend/Classes/Controller/File/CreateFolderController.php:115-118 | The missing-target error has code 1294586845. The storage error has code 1375889838. |
| `CreateFolder.CheckFolder` | typo3/sysext/backend/Classes/Controller/File/CreateFolderController.php:112-119 | No folder raises the target error, whatever else holds: that check comes first. A folder on storage uid 0 raises the access error. Any other folder passes. |
| `CreateFolder.CreateFolderController.constructor` | typo3/sysext/backend/Classes/Controller/File/CreateFolderController.php:89-93 | A new controller has no folder, no title and no content. |
| `CreateFolder.CreateFolderController.Init` | typo3/sysext/backend/Classes/Controller/File/CreateFolderController.php:101-125 | It sets `number`, `target` and the sanitized `returnUrl`. It resolves the folder only for a true target value, and ends in the `CheckFolder` outcome. On success the title is the storage name, `: `, and the folder identifier. The content is unchanged. |
| `CreateFolder.Clamp` | typo3/sysext/backend/Classes/Controller/File/CreateFolderController.php:161 | The result lies in [lo, hi]. Values below become lo, values above become hi, and values in range are kept. |
| `CreateFolder.ExactlyOneSelected` | typo3/sysext/backend/Classes/Controller/File/CreateFolderController.php:170-172 | The options ascend from 1 to the count. For a number in range, exactly one option is selected: the one equal to the number. |
| `CreateFolder.NumberChoicesAt` | typo3/sysext/backend/Classes/Controller/File/CreateFolderController.php:170-172 | Option k has value k+1, and it is selected iff the number is k+1. |
| `CreateFolder.FolderGroupsAt` | typo3/sysext/backend/Classes/Controller/File/CreateFolderController.php:181-192 | There are exactly `number` groups, or none for a number below 1. Group k has index k, label k+1, and the target as its hidden target. |
| `CreateFolder.BuildNumberChoices` | typo3/sysext/backend/Classes/Controller/File/CreateFolderController.php:170-172 | The option loop produces `NumberChoices(count, number)`. |
| `CreateFolder.BuildFolderGroups` | typo3/sysext/backend/Classes/Controller/File/CreateFolderController.php:181-192 | The new-folder loop produces `FolderGroups(number, target)`. |
| `CreateFolder.FilterExtensions` | typo3/sysext/backend/Classes/Controller/File/CreateFolderController.php:208-214 | It keeps, in input order, exactly the extensions that pass the deny-pattern test. |
| `CreateFolder.BuildSections` | typo3/sysext/backend/Classes/Controller/File/CreateFolderController.php:157-282 | The page content equals `PageSections`: the header, the folder form when adding is allowed, then the media and text-file forms when the storage allows adding files. Every form gets the target and the return URL. |
| `CreateFolder.SectionsGating` | typo3/sysext/backend/Classes/Controller/File/CreateFolderController.php:158-282 | The header comes first. A folder form exists iff `checkActionPermission('add')` holds. A media form and a text-file form exist iff `checkUserActionPermission('add','File')` holds. The section count follows from the two permissions. |
| `CreateFolder.SectionsWithoutFolderForm` | typo3/sysext/backend/Classes/Controller/File/CreateFolderController.php:205-282 | Without the folder form, the page is the header plus, when permitted, the two file forms. |
| `CreateFolder.SectionsWithoutFileForms` | typo3/sysext/backend/Classes/Controller/File/CreateFolderController.php:158-203 | Without the file forms, the page is the header plus, when permitted, the folder form. |
| `CreateFolder.PermissionsIndependent` | typo3/sysext/backend/Classes/Controller/File/CreateFolderController.php:158-282 | Changing the folder permission changes only the folder form. Changing the file permission changes only the two file forms. |
| `CreateFolder.FileFormsFilter` | typo3/sysext/backend/Classes/Controller/File/CreateFolderController.php:205-282 | Dropping the folder form keeps both file forms. Dropping the file forms removes both of them. |
| `CreateFolder.BackButtonOf` | typo3/sysext/backend/Classes/Controller/File/CreateFolderController.php:284-291 | The back button is a link iff the return URL is a true value, and it then points to that URL. |
| `CreateFolder.CreateFolderController.MainContent` | typo3/sysext/backend/Classes/Controller/File/CreateFolderController.php:151-302 | When adding is allowed, `number` is clamped into 1..10; otherwise it is unchanged. The content gains the page start, a module body, and the page end. The module body holds the sections, the back button, and the title as path. Folder, target, return URL and title are unchanged. |
| `CreateFolder.FolderFormShape` | typo3/sysext/backend/Classes/Controller/File/CreateFolderController.php:161-192 | For any requested number, the rendered selector offers 1..10 with exactly the clamped number selected. There are exactly that many input groups, each targeting the folder. |

## Left out

- Database access is not modelled: the queries, the result iteration, the workspace overlay `workspaceOL` and the `versioningPlaceholderClause`. Tables are sequences of records in query order, and `deleteClause` is a `deleted` flag.
- All markup is abstracted to cell and section values. This covers the HTML and JavaScript text, `htmlspecialchars`, `quoteJSvalue`, labels, icons, click menus, `fixed_lgd_cs` title truncation, `nav_title` and `_CSSCLASS`. The `strtoupper` of listed extensions is left out too: the model lists each extension as given.
- `PageTreeView::getTree`, the page permission clause, and the starting record lookup are inputs: the subtree and the starting page record are parameters of `TranslationStatus.MainContent`.
- `TranslationStatus.MainContent` leaves out the page header and the depth and language dropdowns with their help link. These are output of collaborators not part of this model.
- The splice of `newOL_js` into the onclick string (`explode('?')`, lines 292-297) is left out. A fragment is represented by the uid of its page.
- `getModTSconfig` and `trimExplode` for `disableLanguages` are a given function from page uid to a list of language uids.
- `TranslationStatus.SystemLanguages` takes the group's `allowed_languages` as an already split list of uids. The empty list stands for the empty setting. A missing (null) setting, which PHP would split into one empty entry that matches no uid, is not modelled.
- `TranslationStatus.ColumnsMembers` compares the `SET[lang]` setting as an integer. PHP's loose comparison of a non-numeric string with 0 is not modelled.
- `TranslationStatus.RecUidsDefault` requires that no shown language has uid 0. Only then is `langRecUids[0]` exactly the page uids, because the source files overlay uids by language uid.
- `TranslationStatus.RecUidsLanguage` requires distinct, non-zero uids for the same reason. Without that, the source mixes the lists of languages that share a uid.
- `CreateFolder.CreateFolderController.Init` takes `number` as an integer. The string-to-integer cast of the raw request value inside `forceIntegerInRange` is not modelled.
- `CreateFolder.CreateFolderController.constructor` does not call `Init`. Dafny constructors cannot end in an exception outcome, so set-up is the separate `Init` method, and the PHP constructor's `$GLOBALS['SOBE']` assignment is left out.
- `CreateFolder.CreateFolderController.MainContent` requires a resolved folder. In the source a controller without one never exists, because `init` raises first.
- `CreateFolder.CreateFolderController.MainContent` leaves out `insertStylesAndJS`, the document template and its JavaScript, and `linkThisUrl`. The back button carries the return URL itself.
- `mainAction` and `printContent` write the content to the response or to the output. That is I/O and is left out.
- `AbstractFunctionModule` plumbing is left out: the `pObj` module settings are fields of `Env`, and the language service is not modelled.
- `typo3/sysext/backend/Classes/Backend/Avatar/Image.php` is not part of this model: it is a value holder whose URL logic depends on path helpers not shown.
- `typo3/sysext/fluid/Tests/Unit/Core/Compiler/AbstractCompilerTemplateTest.php` is not part of this model: the class it tests is not shown.
