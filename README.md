# Credential vault and file organizer, modelled in Dafny

This project models the decision cores of two small Python programs and
proves what they promise.

**The credential vault (`password_manager.py`):**

- The strong-password generator:
  - builds the character pools in the order upper, lower, digits, symbols;
  - rejects its parameters when no class is enabled or when the length is below the class count;
  - draws one seed character per pool and fills the rest from the joined pools;
  - shuffles the result in place (Fisher–Yates).
- The entry store:
  - a singleton metadata row holding the salt;
  - the `entries` table keyed uniquely by service, with upsert, lookup, sorted listing and delete.
- Key derivation and Fernet are modelled symbolically.

**The file organizer (`file_organizer.py`):**

- the category table `FILE_CATEGORIES` and `identify_file_type`, a first-match search over it;
- the planning core of `organize_files`:
  - collecting the regular files and their categories;
  - creating the category folders;
  - picking a collision-free name for each file;
  - the per-category statistics, with failed moves counted under `"Errors"`.

**Files:**

| file | module | what it holds |
|---|---|---|
| `results.dfy` | `Results` | `Option` and `Result` |
| `password_generator.dfy` | `PasswordGenerator` | `generate_password`: the method with its loops, the specification function `Generate`, and the strength lemmas |
| `vault_crypto.dfy` | `VaultCrypto` | `derive_key` and Fernet, symbolic |
| `string_order.dfy` | `StringOrder` | SQLite's BINARY collation (code-point lexicographic order) and the sorted listing of a set of names |
| `vault_store.dfy` | `VaultStore` | the class `VaultDb` (metadata row and entries map, updated in place) and the pure queries over the table |
| `decimal.dfy` | `Decimal` | `str` of a natural number and its inverse, needed for the collision counter |
| `file_categories.dfy` | `FileCategories` | `FILE_CATEGORIES` and `identify_file_type` |
| `file_organizer.dfy` | `FileOrganizer` | `organize_files` over an abstract directory listing |

**Randomness and the environment are inputs:**

- `draw(n, m)` is the outcome of the n-th random choice among `m` options. The type of `draw` requires it to lie in `[0, m)`.
- A fresh salt and a timestamp are parameters.
- In the organizer, the directory is a sequence of items in `iterdir` order. A sub-directory carries the set of names it holds.
- `moveFails(i)` says whether the i-th `shutil.move` raises.

Every property is proved for all such inputs.

**Two details of the code the model keeps:**

- On a conflict `add_entry` updates only `username` and `password` (`password_manager.py:134-136`), so `VaultStore.Upsert` keeps an existing row's `created_at`.
- `generate_password` accepts any integer length and raises `ValueError` in both error cases, modelled as `NoCharacterSet` and `LengthTooShort(n)`. `GenerateIsStrong` proves `length ≥ 1` for every successful call.

## Model

| member | source | states |
|---|---|---|
| PasswordGenerator.EnabledPools | password_manager.py:45-53 | one non-empty pool per enabled class, as many pools as classes enabled |
| PasswordGenerator.EnabledPoolsMembers | password_manager.py:45-53 | a class's pool is among the pools exactly when its flag is set |
| PasswordGenerator.CollectPools | password_manager.py:45-53 | the four conditional appends build exactly `EnabledPools`, in the order upper, lower, digits, symbols |
| PasswordGenerator.Generate | password_manager.py:55-58 | fails with `NoCharacterSet` iff no class is enabled; fails with `LengthTooShort(n)` iff `length < n` for `n > 0` enabled classes; succeeds iff `0 < n <= length` |
| PasswordGenerator.Pick | password_manager.py:59 | `secrets.choice` returns a character of the pool it draws from |
| PasswordGenerator.JoinMembers | password_manager.py:60 | a character is in `"".join(pools)` iff some pool holds it |
| PasswordGenerator.Seeded | password_manager.py:59-61 | the seeds plus the fillers make exactly `length` characters |
| PasswordGenerator.SeededCoversPools | password_manager.py:59-61 | position i < \|pools\| holds a character of pool i, and every character comes from the joined pools |
| PasswordGenerator.FillSeeded | password_manager.py:59-61 | the two filling loops produce, in a fresh array, exactly the seed and filler characters |
| PasswordGenerator.SwapPermutes | password_manager.py:66 | exchanging two positions keeps the length and the multiset |
| PasswordGenerator.ShuffleDownPermutes | password_manager.py:64-66 | the shuffle steps from position i down to 1 keep the length and the multiset |
| PasswordGenerator.ShufflePermutes | password_manager.py:64-66 | the whole shuffle is a permutation: same length, same multiset |
| PasswordGenerator.ShuffleInPlace | password_manager.py:64-66 | the in-place loop, with j drawn in [0, i], leaves the array equal to the specified shuffle of its old contents |
| PasswordGenerator.GeneratePassword | password_manager.py:32-68 | the method returns exactly what `Generate` specifies, errors included |
| PasswordGenerator.GenerateIsStrong | password_manager.py:55-68 | a successful result has `length >= 1` characters, a character of every enabled pool, and only characters of enabled pools |
| PasswordGenerator.AllClassesStrong | password_manager.py:32-68 | with all four classes enabled, every length of at least 4 succeeds with exactly that many characters, holding an upper, a lower, a digit and a symbol |
| PasswordGenerator.DefaultPasswordIsStrong | password_manager.py:32-37 | the call with the defaults (length 16, all classes), as the menu makes it, succeeds with 16 characters covering every class; the menu calls it so at `password_manager.py:192` and `239` |
| PasswordGenerator.EightWithAllClasses | password_manager.py:32-68 | length 8 with all four classes succeeds, has 8 characters, and holds an upper, a lower, a digit and a symbol |
| PasswordGenerator.TwoWithAllClassesFails | password_manager.py:57-58 | length 2 with all four classes fails with `LengthTooShort(4)` |
| VaultCrypto.DeriveKeyInjective | password_manager.py:19-30 | the same master password and salt give the same key, and different inputs give different keys |
| VaultCrypto.Decrypt | password_manager.py:152 | decryption succeeds iff the token was sealed under the key |
| VaultCrypto.DecryptEncrypt | password_manager.py:152 | decrypting with the sealing key returns the plaintext |
| VaultCrypto.DecryptWrongKey | password_manager.py:152 | any other key fails with `InvalidToken` |
| VaultStore.SaltRow | password_manager.py:98-110 | an existing metadata row is kept; otherwise the row holds the fresh salt and the current time |
| VaultStore.SaltCreatedOnce | password_manager.py:98-110 | a second call returns the first call's row, whatever randomness it is offered |
| VaultStore.VaultDb.constructor | password_manager.py:75-96 | a new vault has no metadata row and no entries |
| VaultStore.VaultDb.GetOrCreateSalt | password_manager.py:98-110 | returns the stored salt, or stores and returns the fresh one; only the metadata row can change |
| VaultStore.VaultDb.Unlock | password_manager.py:112-117 | the session key is derived from the master password and the salt now stored |
| VaultStore.Upsert | password_manager.py:130-139 | exactly one row for the service, holding the new username and token; an existing row keeps its `created_at`; every other row is unchanged |
| VaultStore.VaultDb.AddEntry | password_manager.py:126-140 | the entries become the upsert of the encrypted password; the metadata row is untouched |
| VaultStore.GetEntry | password_manager.py:142-153 | `None` iff the service is absent; `InvalidToken` iff the stored token does not open under the key; otherwise the row with its password decrypted |
| VaultStore.AddThenGet | password_manager.py:126-153 | after an add, a lookup under the same key returns the raw password, the new username and the original `created_at` |
| VaultStore.AddKeepsOthers | password_manager.py:130-139 | an add does not change the lookup of any other service |
| VaultStore.UpsertTwice | password_manager.py:130-139 | two adds for one service leave one row, holding the second username and password and the first timestamp |
| VaultStore.ListServices | password_manager.py:155-159 | every stored service exactly once, in strictly ascending BINARY order |
| VaultStore.ListIsSorted | password_manager.py:158 | services added as zeta, alpha, mike are listed as alpha, mike, zeta |
| VaultStore.VaultDb.DeleteEntry | password_manager.py:161-166 | returns true iff a row for the service existed; exactly that row is removed |
| VaultStore.DeleteThenGet | password_manager.py:142-166 | after a delete the service reads as absent and every other service as before |
| VaultStore.ReopenVault | password_manager.py:112-153 | a key derived again from the same master password and salt opens the entry; another master password fails with `InvalidToken` |
| VaultStore.SessionScenario | password_manager.py:98-166 | on a new vault, an entry added in one session reads back in the next under the same master password whatever salt is offered, another master password gets `InvalidToken`, deleting a missing service returns false and deleting the entry returns true and leaves it absent |
| StringOrder.BelowTotal | password_manager.py:158 | any two names are ordered one way or the other |
| StringOrder.BelowAntisymmetric | password_manager.py:158 | names ordered both ways are equal |
| StringOrder.BelowTransitive | password_manager.py:158 | the order is transitive |
| StringOrder.SortedList | password_manager.py:158 | the listing holds each name of the set once, in strictly ascending order |
| StringOrder.AscendingUnique | password_manager.py:158 | two strictly ascending listings with the same members are equal, so `ORDER BY` fixes the result |
| Decimal.DecimalString | file_organizer.py:83 | the decimal digits of the counter: non-empty, digits only, no leading zero for a positive counter, and "0" for zero |
| Decimal.ParseDecimalString | file_organizer.py:83 | parsing the digits gives back the counter |
| Decimal.DecimalStringInjective | file_organizer.py:83 | different counters give different digit strings |
| FileCategories.CategoryNames | file_organizer.py:8-22 | the ten category names literally, in table order, pairwise distinct as dictionary keys are |
| FileCategories.OthersIsDefaultOnly | file_organizer.py:21 | "Others" is the last category, its list is empty, and no other category bears its name |
| FileCategories.Lower | file_organizer.py:30 | lower-casing keeps the length, leaves no `A`–`Z`, shifts `A`–`Z` by 32, maps the Kelvin sign to `k` and keeps every other character |
| FileCategories.LowerIdempotent | file_organizer.py:30 | lower-casing twice is lower-casing once |
| FileCategories.FirstMatch | file_organizer.py:32-34 | the index found is the first category from the start index whose list holds the extension; `None` iff no list holds it |
| FileCategories.IdentifyFileType | file_organizer.py:24-36 | the result is always a category of the table |
| FileCategories.IdentifyFileTypeFirstMatch | file_organizer.py:30-36 | "Others" iff no list holds the lower-cased suffix; otherwise the first category in table order whose list holds it |
| FileCategories.CaseInsensitive | file_organizer.py:30 | suffixes equal after lower-casing get the same category |
| FileCategories.JpgAnyCase | file_organizer.py:30-34 | ".JPG" and ".jpg" are both "Images" |
| FileCategories.XlsIsDocument | file_organizer.py:13-34 | ".xls" is "Documents", not "Spreadsheets" |
| FileCategories.DmgIsArchive | file_organizer.py:15-34 | ".dmg" is "Archives", not "Executables" |
| FileCategories.PptxIsDocument | file_organizer.py:13-34 | ".pptx" is "Documents", not "Presentations" |
| FileCategories.KeyIsPresentation | file_organizer.py:13-34 | ".key", listed only under Presentations, is "Presentations" |
| FileCategories.KelvinKeyIsPresentation | file_organizer.py:20-34 | a suffix spelled with the Kelvin sign, ".\u212Aey", lower-cases to ".key" and is "Presentations" |
| FileOrganizer.RegularFilesMembers | file_organizer.py:61-62 | a name is among the collected files iff the listing holds it as a regular file |
| FileOrganizer.ClassifiedPlan | file_organizer.py:61-64 | the plan holds every collected file once, in listing order, with its `identify_file_type` category, always a table key and never "Errors"; the categories it uses are exactly the categories needed |
| FileOrganizer.CollectFiles | file_organizer.py:58-65 | the first loop builds the classified file list and the set of categories needed |
| FileOrganizer.CreateCategoryFolders | file_organizer.py:38-42 | fails iff some needed name is held by a non-directory; otherwise one folder per needed category, holding what was there before |
| FileOrganizer.InitialFolders | file_organizer.py:61-67 | the folders created are exactly the categories of the regular files found |
| FileOrganizer.ClassifiedIsFeasible | file_organizer.py:61-67 | every planned category has a folder, and none is called "Errors" |
| FileOrganizer.ErrorsIsNoCategory | file_organizer.py:96 | "Errors" is not a category, so failures never mix with a category's count |
| FileOrganizer.FreshName | file_organizer.py:75-85 | the chosen name is the original name when it is free, otherwise `stem_k.suffix` for the smallest k >= 1 that is free; never a name already present |
| FileOrganizer.NumberedFrom | file_organizer.py:81-85 | the first free numbered name from counter k on is free, and all smaller counters are taken |
| FileOrganizer.ChooseDestination | file_organizer.py:75-85 | the rename loop terminates and returns exactly that name |
| FileOrganizer.FreshChoiceUnique | file_organizer.py:78-85 | at most one name satisfies the renaming rule |
| FileOrganizer.CandidateInjective | file_organizer.py:83 | different counters give different candidate names |
| FileOrganizer.CandidateNotBelow | file_organizer.py:82-85 | each round tries a name not tried before, so the finite folder bounds the loop |
| FileOrganizer.TotalBump | file_organizer.py:88 | each increment of a count adds one to the sum of the counts |
| FileOrganizer.StatsAfterFailure | file_organizer.py:94-96 | a failed move adds one to "Errors" and changes no other count |
| FileOrganizer.StatsAfterMove | file_organizer.py:87-89 | a successful move adds one to its category and changes no other count |
| FileOrganizer.FoldersAfterContents | file_organizer.py:87 | each folder ends with its contents before the moves plus the names the moves gave |
| FileOrganizer.FreshMovesAt | file_organizer.py:78-87 | the t-th move's name follows the renaming rule for its folder after the earlier moves |
| FileOrganizer.FreshNameAt | file_organizer.py:78-87 | the t-th move's name follows the renaming rule for the folder's prior contents plus the earlier moves into it |
| FileOrganizer.FreshMovesNeverCollide | file_organizer.py:78-87 | no destination was in its folder before, and no two moves into one folder get the same name |
| FileOrganizer.SucceededFromPlan | file_organizer.py:72-96 | every attempt fails or succeeds, and every success comes from the plan |
| FileOrganizer.MoveAllMoves | file_organizer.py:72-96 | the moves made are the planned files whose move did not fail, in plan order |
| FileOrganizer.StepFolders | file_organizer.py:74-88 | one round keeps the folders in step with the moves made |
| FileOrganizer.MoveAllFolders | file_organizer.py:72-96 | the folders are always what the moves so far produce |
| FileOrganizer.MoveAllKeys | file_organizer.py:72-96 | the move loop creates no folder |
| FileOrganizer.MoveAllCategories | file_organizer.py:72-96 | every move goes into a folder that existed before the loop |
| FileOrganizer.MoveAllStats | file_organizer.py:68-96 | every key has a positive count, the counts sum to the attempts, "Errors" counts the failures, and each category counts its moves |
| FileOrganizer.StepFresh | file_organizer.py:74-87 | one round keeps every move's name fresh |
| FileOrganizer.MoveAllFresh | file_organizer.py:72-87 | every move of the loop picks its name by the renaming rule |
| FileOrganizer.MoveOne | file_organizer.py:73-96 | one round: the name is chosen, then the move fails and counts under "Errors", or it lands and counts under its category |
| FileOrganizer.MoveFiles | file_organizer.py:72-96 | the move loop produces exactly the specified rounds over the plan |
| FileOrganizer.RunMovesClassified | file_organizer.py:61-96 | every moved file is a regular file of the listing, in the folder of its own category; files moved plus failures equal the files found |
| FileOrganizer.RunFolders | file_organizer.py:61-96 | after a run there is one folder per category found, holding its old contents plus the names moved into it |
| FileOrganizer.RunFreshNames | file_organizer.py:75-87 | each file's name follows the renaming rule for its folder at that moment, including files moved earlier in the run |
| FileOrganizer.RunNoOverwrite | file_organizer.py:78-87 | a run never lands a file on a name its folder held before, nor two files on one name |
| FileOrganizer.RunCounts | file_organizer.py:68-98 | the counts sum to the number of regular files; "Errors" counts the failed moves; each category counts the files moved into it; no zero entries |
| FileOrganizer.OrganizeFiles | file_organizer.py:44-98 | `InvalidDirectory` iff the path is missing or not a directory, before anything else; fails iff a needed folder name is held by a non-directory; otherwise the report of the specified run |

## Left out

- `derive_key` (`password_manager.py:19-30`): PBKDF2-HMAC-SHA256 (RFC 8018 section 5.2) and base64url (RFC 4648 section 5) are library calls. They are kept symbolic. A key records its master password and salt, so `DeriveKeyInjective` states collision freedom, which a real hash gives only with overwhelming probability.
- Fernet (`password_manager.py:117`, `129`, `152`) is kept symbolic: a token records its key, a nonce and the plaintext. Real tokens are authenticated ciphertext, and the UTF-8 encoding and decoding around them is not modelled.
- `os.urandom`, `datetime.utcnow` and `secrets.choice` are parameters. The uniform distribution of the choices is not modelled: properties hold for every sequence of choices.
- The SQLite connection, PRAGMA, schema text and commits (`get_conn`, `init_db`) are left out. The tables are a map and an optional row, and the autoincrement `id` column is not kept.
- The interactive prompts, the menu loop, `sys.exit`, the tkinter GUI, `main`, `progress_callback`, `moved_count` and the printed error messages are terminal or UI I/O.
- Real filesystem effects (`iterdir`, `mkdir`, `shutil.move`) are left out. The directory is a listing of items with name sets, and a failed move is the oracle `moveFails`. A move that half-completes, and changes to the directory by other processes during a run, are not modelled.
- Exceptions other than a failed move or a blocked `mkdir` are not modelled, for example a permission error while listing.
- Pathlib's `stem`/`suffix` splitting is not modelled: each file name arrives as a (stem, suffix) pair.
- FileCategories.Lower: only `A`–`Z` and the Kelvin sign (U+212A, lower case `k`) are lower-cased. Python's `str.lower` maps every other letter it changes to non-ASCII text (U+0130 even to two characters), and every extension in the table is ASCII, so classification is the same; the lower-cased string itself can differ from Python's.
- FileOrganizer.FreshName: `destination_path.exists()` (`file_organizer.py:78`, `82`) is modelled as exact, case-sensitive membership in the folder's set of names. On a case-insensitive file system (the default on macOS and Windows) the program renames "A.JPG" when the folder holds "a.jpg", which the model does not; and `exists()` is false for a dangling symbolic link, which `shutil.move` then replaces, so `RunNoOverwrite` does not cover that link.
- FileOrganizer.RunCounts: `progress_callback` (`file_organizer.py:91-92`, called when one is passed) runs inside the `try` after `stats[category] += 1`. The model takes it not to raise; if it raised, the file would be counted under its category and under "Errors" both, and the counts would exceed the files found.
- VaultStore.ListServices: BINARY collation compares UTF-8 bytes. The model compares code points, which orders strings the same way.
