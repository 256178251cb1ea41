# Employee profile management: a Dafny model of the employees API

The modelled service is an ASP.NET Core Web API that stores employee profiles in PostgreSQL through
Entity Framework Core. Each employee owns a tree: positions (each naming a role from the
PositionResources lookup table), under each position the tools or languages used in it (each naming
a row of ToolLanguageResources, with a year range and a description), and under each of those the
images that illustrate it. This project models the employees controller, the request validators,
the file conversion helpers, the entity shapes and the seeding of the lookup tables, and proves
what these promise.

- `common.dfy`: `Option` and `byte`.
- `lookup.dfy`: the key lookups the controller runs with `FirstOrDefault` and `First`, as indices.
- `models.dfy`: the entities as datatypes. The `EmployeeContext` class is the database. It holds
  the employee trees, the two lookup tables and the identity sequences, with the invariant every
  committed state keeps. `Initialize` is the seeding.
- `dtos.dfy`: the request DTOs, the four FluentValidation validators (as predicates and as
  message lists) and `FileConverter`.
- `images.dfy`, `toollanguages.dfy`, `positions.dfy`: `PutEmployee`'s reconciliation, one level
  each. Each level has the add/update loop and the delete loop as methods, proved equal to functions
  that fold over the DTO list or over the stored list. The lemmas about those functions state what
  the two passes do by key.
- `creation.dfy`: `PostEmployee`'s construction of a new tree, both as the code is written (the image
  DTOs of each tool language are looked up again in the request by key) and as it is meant to work
  (each tool language takes the images of the DTO it was mapped from).
- `listing.dfy`: `GetEmployees`' ordering by experience and its paging.
- `controller.dfy`: the controller class, one method per action, over the shared context.

Behaviour the model follows from the code:

- A stored child is matched by the first child with the DTO's key.
  - When a stored list holds a key twice, only the first row is updated.
  - When two DTOs carry the same key, the last one's fields win (`MergedImagesLastWins`,
    `MergedToolLanguagesLastWins`).
  - In the delete pass, the first DTO with a child's key decides what is kept below it.
- New positions and tool languages carry the key and fields of their DTO (the mapper copies them).
  - A new position is a deep copy of its DTO: its tool languages are already there, each with a
    null image list, since the profile ignores `Images` (Program.cs:14-16).
  - The tool-language loop then runs over that copy, and a DTO finds the first copy with its key.
  - When two tool-language DTOs of a new position share a key (0 for new rows), the second copy
    keeps its null list. The delete pass calls `Images.ToList()` on it and throws, so the PUT answers
    InternalServerError and nothing is saved (`MergedPositionsUnreadable`, `ReconcileSucceedsIff`).
- A new image is built from its upload and display order only, so its key is 0.
  - Each image DTO whose key matches no image so far appends a new image with key 0
    (`MergedImagesAppended`). DTO keys 5 and 5, or 0 and 6, with nothing stored, both give two key-0
    images.
  - Once a key-0 image exists, a DTO keyed 0 finds the first one and overwrites it. Two new image
    DTOs both keyed 0 therefore leave one image, and the first upload is lost.
  - The delete pass keeps every key-0 image when some DTO is keyed 0, and removes them all
    otherwise. A new image from a DTO with a non-zero key survives only when the request also has
    an image DTO keyed 0.
  - `ReconciledImageIds` states exactly which keys remain.
- Two new tool-language DTOs keyed 0 under a stored position collapse the same way: the second
  overwrites the tool language the first one added. So do two new position DTOs keyed 0
  (`MergedToolLanguagesAppended`, `MergedPositionsAppended`).
- Every image DTO in a PUT must carry an upload.
  - Both branches of the image loop read `Data`, so a missing upload throws and nothing is saved
    (InternalServerError).
  - The validator accepts an image without an upload when its id is at least 0.
- `(pageNumber - 1) * pageSize` is evaluated in 32-bit arithmetic and may wrap (`SkipCountWraps`).
  The database rejects a negative OFFSET or LIMIT.

## Model

| member | source | states |
|---|---|---|
| Lookup.FirstIndex | Controllers/EmployeesController.cs:135 | The index `FirstOrDefault` stops at: none exactly when the key is absent, otherwise a slot holding the key with no earlier one. |
| Lookup.DistinctIffFirst | Controllers/EmployeesController.cs:148 | Keys are distinct exactly when the lookup by each slot's key stops at that slot. |
| Lookup.DistinctCountIffDistinct | DTOs.cs:59 | `Distinct().Count() == Count` holds exactly when no key repeats. |
| Models.EmployeeContext.constructor | EmployeeContext.cs:5-20 | A fresh database is empty and valid; identity sequences start at 1. |
| Models.Initialize | EmployeeContext.cs:111-166 | With the role table empty, seeds 3 roles and then 19 tools under the new roles, leaving employees untouched and advancing the role and tool identity sequences by 3 and 19. Otherwise changes nothing, so a second call adds nothing. Either way the store stays valid and the role table is non-empty. |
| Models.ToolLanguageSeedGrouped | EmployeeContext.cs:133-158 | The seeder's tool table is nineteen rows: 5 Frontend, then 8 Backend, then 6 Designer. |
| Models.SeededToolsPerRole | EmployeeContext.cs:133-158 | For a table laid out that way, one seeding files 5 tools under Frontend, 8 under Backend and 6 under Designer; every seeded tool names a role seeded in the same run. |
| Models.AddPositionResources | EmployeeContext.cs:121-131 | Appends the three roles in order, numbered by the identity sequence, which advances by three; nothing else changes. |
| Models.AddToolLanguageResources | EmployeeContext.cs:133-164 | Appends one tool row per seed entry in order, numbered by the identity sequence and pointing at the saved key of its role; nothing else changes. |
| Models.SeedingKeepsStoreValid | EmployeeContext.cs:119-164 | Seeding an empty lookup schema yields valid lookup tables whose keys come from the identity sequences. |
| Models.StoreValidReplace | Controllers/EmployeesController.cs:215-218 | Writing back an employee under its own key keeps the store valid, given a parent-keyed, range-ordered tree whose references resolve. |
| Models.StoreValidAppend | Controllers/EmployeesController.cs:105-106 | Inserting an employee under the next identity key and advancing the sequence keeps keys distinct and the store valid. |
| Models.StoreValidAdvance | Controllers/EmployeesController.cs:105-106 | A failed insert that consumed an identity key leaves the store valid. |
| Models.StoreValidRemove | Controllers/EmployeesController.cs:243-244 | Deleting an employee with its tree keeps the store valid. |
| Dtos.ImageErrors | DTOs.cs:93-104 | No message exactly when an attached file is at most 2 MB and of an `image/` content type; an image without a file passes. |
| Dtos.ImageIdOrDataErrors | DTOs.cs:88 | No message exactly when every image has id >= 0 or a non-empty file. |
| Dtos.ImagesErrors | DTOs.cs:89 | No message exactly when every image passes ImageValidator. |
| Dtos.ToolLanguageErrors | DTOs.cs:78-91 | No message exactly when the resource id is non-zero, From <= To, the description is not blank, there is an image and every image passes both image rules. |
| Dtos.ToolLanguagesErrors | DTOs.cs:74 | No message exactly when every tool language passes ToolLanguageValidator. |
| Dtos.PositionErrors | DTOs.cs:65-76 | No message exactly when the role id is non-zero, there is a tool language, tool resource ids are pairwise distinct and every tool language is valid. |
| Dtos.PositionsErrors | DTOs.cs:61 | No message exactly when every position passes PositionValidator. |
| Dtos.EmployeeErrors | DTOs.cs:52-63 | No message exactly when the name is not blank, there is a position, role ids are pairwise distinct and every position is valid. |
| Dtos.AcceptedTreeIsValid | DTOs.cs:52-104 | Validity is hierarchical: an accepted employee has only valid positions, tool languages and images, and ordered years. |
| Dtos.ToFormFile | DTOs.cs:108-117 | Gives no file exactly for a null or empty array; otherwise a file holding exactly those bytes under the given names. |
| Dtos.FromFormFile | DTOs.cs:119-129 | Gives null exactly for no file; otherwise the file's bytes. |
| Dtos.FormFileRoundTrip | DTOs.cs:108-129 | Converting a non-empty array to a file and back gives the same bytes; an empty array comes back null. |
| Dtos.FormFileRoundTripBack | DTOs.cs:108-129 | Reading a non-empty upload and wrapping it again keeps its bytes and names. |
| ImageLevel.MergedImages | Controllers/EmployeesController.cs:161-181 | After the image loop, stored images keep place, key and owner; every added image has key 0 and belongs to this tool language. |
| ImageLevel.MergeImages | Controllers/EmployeesController.cs:159-181 | The loop succeeds exactly when every image DTO has an upload, and then yields MergedImages. |
| ImageLevel.PrunedImages | Controllers/EmployeesController.cs:203-209 | An image survives exactly when it was there and some DTO has its key. |
| ImageLevel.PruneImages | Controllers/EmployeesController.cs:203-209 | The delete loop yields PrunedImages. |
| ImageLevel.MergeImageAt | Controllers/EmployeesController.cs:163-180 | One turn changes a stored image only when it is the first with the DTO's key, overwriting payload and order. |
| ImageLevel.MergedImagesLastWins | Controllers/EmployeesController.cs:161-181 | A stored image ends with the upload and order of the last DTO carrying its key, if it is the first image with that key; otherwise it is untouched. |
| ImageLevel.MergedImagesGrowIff | Controllers/EmployeesController.cs:163-173 | The loop appends an image exactly when some DTO's key is not stored. |
| ImageLevel.MergedImageIds | Controllers/EmployeesController.cs:161-181 | By key, the loop adds nothing but key 0, and only when it appended. |
| ImageLevel.PrunedImageIds | Controllers/EmployeesController.cs:203-209 | By key, a key remains exactly when it was there and some DTO names it. |
| ImageLevel.MergedImagesAppended | Controllers/EmployeesController.cs:163-173 | Every new image the loop added is the image built from the upload and display order of the last DTO whose turn wrote it, and that DTO names no stored image. |
| ImageLevel.ReconciledImageIds | Controllers/EmployeesController.cs:161-209 | After both passes, key x remains exactly when a DTO names it and either it was stored, or it is 0 and some DTO key was not stored. |
| ImageLevel.ReconciledImagesKeyed | Controllers/EmployeesController.cs:161-209 | Both passes keep every image keyed to its tool language. |
| ToolLanguageLevel.MergedToolLanguages | Controllers/EmployeesController.cs:147-183 | After the loop, stored tool languages keep place, key and owner; added ones belong to this position and carry a DTO key; every DTO key is present. |
| ToolLanguageLevel.MergeToolLanguageShape | Controllers/EmployeesController.cs:147-157 | One turn keeps every key in place and appends at most the DTO's key. |
| ToolLanguageLevel.MergeOneToolLanguage | Controllers/EmployeesController.cs:147-182 | One turn succeeds exactly when its image DTOs all have uploads, and then matches MergeToolLanguage. |
| ToolLanguageLevel.MergeToolLanguages | Controllers/EmployeesController.cs:147-182 | The loop succeeds exactly when every image DTO below has an upload, and then yields MergedToolLanguages. |
| ToolLanguageLevel.PrunedToolLanguages | Controllers/EmployeesController.cs:195-210 | A tool language survives exactly when it was there and some DTO has its key. |
| ToolLanguageLevel.PruneToolLanguages | Controllers/EmployeesController.cs:195-210 | The delete loop, with the image delete loop inside, runs to the end exactly when every tool language it keeps has an image list, and then yields PrunedToolLanguages. |
| ToolLanguageLevel.MergedToolLanguagesLoaded | Controllers/EmployeesController.cs:147-160 | After the loop a tool language has an image list exactly when it is new, had one, or is the first with the key of some DTO. |
| ToolLanguageLevel.MappedToolLanguagesReadable | Controllers/EmployeesController.cs:138-210 | Over a new position's deep copy, the delete loop can read every image list exactly when the tool-language DTOs have distinct keys. |
| ToolLanguageLevel.MergedToolLanguagesAppended | Controllers/EmployeesController.cs:149-157 | A tool language the loop added is the only one with its key, which is not stored, and carries the fields of the last DTO with that key. |
| ToolLanguageLevel.MergedToolLanguageIds | Controllers/EmployeesController.cs:147-157 | By key, the loop yields exactly the stored keys plus the DTO keys. |
| ToolLanguageLevel.ReconciledToolLanguageIds | Controllers/EmployeesController.cs:147-210 | After both passes a position holds exactly the DTOs' tool-language keys. |
| ToolLanguageLevel.MergedToolLanguagesDistinct | Controllers/EmployeesController.cs:147-157 | With distinct stored keys, the loop never creates a duplicate key. |
| ToolLanguageLevel.MergeToolLanguageAt | Controllers/EmployeesController.cs:149-157 | One turn rewrites a stored tool language only when it is the first with the DTO's key. |
| ToolLanguageLevel.MergedToolLanguagesLastWins | Controllers/EmployeesController.cs:147-157 | A stored tool language ends with the scalars of the last DTO carrying its key, when it is the first with that key. |
| ToolLanguageLevel.MergedToolLanguagesKeyed | Controllers/EmployeesController.cs:147-183 | The add/update pass keeps tool languages and their images parent-keyed. |
| ToolLanguageLevel.PrunedToolLanguagesKeyed | Controllers/EmployeesController.cs:195-210 | The delete pass keeps them parent-keyed. |
| ToolLanguageLevel.MergedToolLanguagesRanges | Controllers/EmployeesController.cs:153-157 | With ordered stored years and DTO years, all years stay ordered. |
| ToolLanguageLevel.PrunedToolLanguagesRanges | Controllers/EmployeesController.cs:195-210 | Pruning keeps years ordered. |
| ToolLanguageLevel.PrunedToolLanguageFrom | Controllers/EmployeesController.cs:195-210 | Each survivor is a stored tool language named by a DTO, with images pruned against the first such DTO. |
| PositionLevel.MergedPositions | Controllers/EmployeesController.cs:133-183 | After the position loop, stored positions keep place, key and owner; added ones belong to the employee and carry a DTO key; every DTO key is present. |
| PositionLevel.MergePositionShape | Controllers/EmployeesController.cs:135-145 | One turn keeps every key in place and appends at most the DTO's key. |
| PositionLevel.MergeOnePosition | Controllers/EmployeesController.cs:133-182 | One turn succeeds exactly when every image DTO below has an upload, and then matches MergePosition, whose new position is the mapper's deep copy of its DTO. |
| PositionLevel.MergePositions | Controllers/EmployeesController.cs:133-183 | The add/update pass succeeds exactly when every image DTO has an upload, and then yields MergedPositions. |
| PositionLevel.PrunedPositions | Controllers/EmployeesController.cs:185-213 | A position survives exactly when it was there and some DTO has its key; a removed one takes its subtree. |
| PositionLevel.PrunePositions | Controllers/EmployeesController.cs:185-213 | The delete pass runs to the end exactly when every tool language it keeps under a kept position has an image list, and then yields PrunedPositions. |
| PositionLevel.MergedPositionIds | Controllers/EmployeesController.cs:133-145 | By key, the pass yields exactly the stored position keys plus the DTO keys. |
| PositionLevel.MergedPositionsDistinct | Controllers/EmployeesController.cs:133-145 | With distinct stored keys, the pass never creates a duplicate position key. |
| PositionLevel.MergedPositionsCover | Controllers/EmployeesController.cs:133-159 | Every tool-language key a position DTO lists is present under the position matched for it after the add/update pass. |
| PositionLevel.PrunedPositionFrom | Controllers/EmployeesController.cs:185-213 | Each survivor is a stored position named by a DTO, with tool languages pruned against the first such DTO. |
| PositionLevel.MergedPositionsKeyed | Controllers/EmployeesController.cs:133-183 | The add/update pass keeps the tree parent-keyed. |
| PositionLevel.PrunedPositionsKeyed | Controllers/EmployeesController.cs:185-213 | The delete pass keeps the tree parent-keyed. |
| PositionLevel.MergedPositionsRanges | Controllers/EmployeesController.cs:133-183 | With ordered stored and DTO years, all years stay ordered. |
| PositionLevel.PrunedPositionsRanges | Controllers/EmployeesController.cs:185-213 | Pruning keeps years ordered. |
| PositionLevel.ReconciledPositionIds | Controllers/EmployeesController.cs:131-213 | After a PUT the employee has the DTO's name, keeps its key, and holds exactly the DTO's position keys. |
| PositionLevel.ReconciledPositionToolLanguageIds | Controllers/EmployeesController.cs:133-213 | Given distinct stored position keys, each remaining position holds exactly the tool-language keys of the first DTO with its key. |
| PositionLevel.ReconciledImagesNamed | Controllers/EmployeesController.cs:161-209 | Every remaining image's key is named by an image DTO of the tool-language DTO and position DTO that decided its parents. |
| PositionLevel.MergedPositionsLastWins | Controllers/EmployeesController.cs:135-145 | A stored position ends with the role and display order of the last DTO with its key when it is the first with that key; otherwise it keeps its own. |
| PositionLevel.MergedPositionsAppended | Controllers/EmployeesController.cs:135-145 | A position the pass added is the only one with its key, which is not stored, and carries the role and display order of the last DTO with that key. |
| PositionLevel.MergedPositionsUnreadable | Controllers/EmployeesController.cs:138-203 | A position DTO that creates a position and repeats a tool-language key leaves a null image list the delete pass reads, so the PUT throws. |
| PositionLevel.ReconcileSucceedsIff | Controllers/EmployeesController.cs:131-213 | For a stored employee, both passes run to the end exactly when every upload is there and every creating position DTO has distinct tool-language keys. |
| PositionLevel.ReconciledImagesLoaded | Controllers/EmployeesController.cs:131-213 | After both passes every remaining tool language has an image list. |
| PositionLevel.ReconciledParentKeyed | Controllers/EmployeesController.cs:131-213 | A PUT keeps the employee's tree parent-keyed. |
| PositionLevel.ReconciledRangesOrdered | Controllers/EmployeesController.cs:131-213 | A PUT with a valid DTO keeps every year range ordered. |
| Creation.ImageSourceAgrees | Controllers/EmployeesController.cs:88-91 | When sibling DTO keys are distinct, the lookup by key finds the DTO the node was mapped from. |
| Creation.ImageSourceMisdirected | Controllers/EmployeesController.cs:88-91 | For a valid request with two new positions keyed 0, the second tool language reads the first one's images. |
| Creation.ImageSourceMissing | Controllers/EmployeesController.cs:88-91 | For a valid request where the second new position's tool language has a key the first lacks, the lookup throws. |
| Creation.PostedAgrees | Controllers/EmployeesController.cs:81-103 | With distinct sibling keys, the construction as written runs to the end exactly when every upload is there, and builds the tree that mirrors the DTO. |
| Creation.CreatedEmployeeMirrorsDto | Controllers/EmployeesController.cs:81-103 | The new tree has the DTO's name under the new key, one node per DTO in order with its key and fields, and one new image per image DTO with its upload and order. |
| Creation.PostedParentKeyed | Controllers/EmployeesController.cs:81-106 | The added tree is parent-keyed. |
| Creation.PostedRangesOrdered | Controllers/EmployeesController.cs:81-106 | An added tree from a valid DTO has ordered years and every image list present. |
| Creation.BuildImages | Controllers/EmployeesController.cs:87-102 | The image loop succeeds exactly when every image DTO has an upload, and builds CreatedImages. |
| Creation.BuildToolLanguages | Controllers/EmployeesController.cs:85-103 | The tool-language loop for one position succeeds exactly when every lookup finds a DTO and every image DTO it reads has an upload, and builds the tool languages as written. |
| Creation.BuildEmployee | Controllers/EmployeesController.cs:81-103 | The construction succeeds exactly when every lookup finds a DTO and every image DTO it reads has an upload, and builds PostedEmployee. |
| Listing.ToolLanguagesExperience | Controllers/EmployeesController.cs:41-43 | The sum of To - From over tool languages is non-negative when every range is ordered. |
| Listing.PositionsExperience | Controllers/EmployeesController.cs:41-43 | The sum over positions is non-negative when every range is ordered. |
| Listing.ExperienceNonNegative | Controllers/EmployeesController.cs:41-43 | A stored employee's experience is at least 0. |
| Listing.InsertByExperience | Controllers/EmployeesController.cs:40-43 | Insertion adds exactly the one employee (as a multiset). |
| Listing.SortByExperience | Controllers/EmployeesController.cs:40-43 | The ordering is a permutation of the employees. |
| Listing.ConsOrdered | Controllers/EmployeesController.cs:40-43 | An employee with at least the experience of everyone in an ordered list can go in front of it. |
| Listing.InsertByExperienceOrdered | Controllers/EmployeesController.cs:40-43 | Inserting into a list ordered by descending experience keeps it ordered. |
| Listing.SortByExperienceOrdered | Controllers/EmployeesController.cs:40-43 | The ordering is by descending experience. |
| Listing.Wrap32 | Controllers/EmployeesController.cs:48 | Unchecked int arithmetic gives the 32-bit value congruent to the exact result, equal to it when it fits. |
| Listing.SkipCountExact | Controllers/EmployeesController.cs:48 | Without overflow, the skip count is (pageNumber - 1) * pageSize. |
| Listing.SkipCountWraps | Controllers/EmployeesController.cs:48 | Page 65537 of size 65536 wraps to skipping nothing. |
| Listing.Page | Controllers/EmployeesController.cs:47-49 | Fails exactly for a negative offset or count; otherwise gives the rows from `offset` on, in order, exactly min(`count`, rows left after `offset`) of them. |
| Listing.PageOrdered | Controllers/EmployeesController.cs:45-50 | A page of the ordered list is ordered. |
| Listing.PagesAdjoin | Controllers/EmployeesController.cs:47-49 | Two adjacent pages read the same rows as one page of their combined size. |
| Listing.PagesCover | Controllers/EmployeesController.cs:45-50 | Reading pages 0..n-1 of size s in turn yields the first n*s rows, none skipped or repeated. |
| Listing.ListedUnpaged | Controllers/EmployeesController.cs:40-50 | Without both paging parameters, the result is every employee, by descending experience. |
| Listing.ListedPage | Controllers/EmployeesController.cs:40-50 | With both given and no overflow, page p holds the employees ranked (p-1)*s onward, exactly min(s, employees left) of them, ordered. |
| Controllers.WithoutRemovesKey | Controllers/EmployeesController.cs:243-244 | With distinct keys, deleting the employee at a slot removes exactly the employee with that key. |
| Controllers.ReconcileEmployee | Controllers/EmployeesController.cs:131-213 | Both passes over one employee succeed exactly when neither throws (a missing upload, a null image list), and yield Reconciled. |
| Controllers.PutChangesOnlyOnCommit | Controllers/EmployeesController.cs:113-231 | An invalid DTO gets BadRequest with messages and a bad id gets BadRequest; an unknown id gets NotFound. The list changes only on NoContent or on NotFound after a concurrent delete. |
| Controllers.PutSucceedsIff | Controllers/EmployeesController.cs:113-231 | NoContent exactly when the DTO is valid, the id is positive and stored, both passes run to the end, references resolve and no conflict occurs. |
| Controllers.PutOnStoredSucceedsIff | Controllers/EmployeesController.cs:113-231 | For stored employees, NoContent exactly when the DTO is valid, the id is positive and stored, uploads are present, every creating position DTO has distinct tool-language keys, references resolve and no conflict occurs. |
| Controllers.PutUpdatesOnlyTarget | Controllers/EmployeesController.cs:113-231 | After NoContent, only the employee with that key changes: it becomes its reconciliation, with the DTO's name and exactly the DTO's position keys. |
| Controllers.PutEmployees | Controllers/EmployeesController.cs:113-231 | The steps of the action on the employee list (validation, id check, lookup, both passes, foreign-key check, concurrency outcome) give exactly PutOutcome's answer and list. |
| Controllers.PutKeepsStoreValid | Controllers/EmployeesController.cs:113-231 | Every PUT outcome leaves a valid store valid. |
| Controllers.EmployeesController.constructor | Controllers/EmployeesController.cs:16-20 | The controller works on the given context. |
| Controllers.EmployeesController.GetEmployees | Controllers/EmployeesController.cs:22-56 | Ok with employees by descending experience: all of them, or exactly the page the wrapped skip count selects, with min(pageSize, employees left after the skip) rows. A negative skip or take gives a server error. |
| Controllers.EmployeesController.GetEmployee | Controllers/EmployeesController.cs:58-75 | Ok with the stored employee of that key exactly when one exists, otherwise NotFound. |
| Controllers.EmployeesController.PostEmployee | Controllers/EmployeesController.cs:77-109 | An invalid DTO gets BadRequest, store unchanged. Created appends PostedEmployee under the next identity key exactly when the DTO is valid, every lookup finds a DTO whose image DTOs have uploads, and references resolve; a failed lookup or missing upload gives a server error with the store unchanged; a tree whose lookup rows do not all exist gives a server error after consuming one employee identity key. The store stays valid. |
| Controllers.EmployeesController.PutEmployee | Controllers/EmployeesController.cs:110-232 | The answer and new employee list are PutOutcome's; lookup tables and sequences are untouched; the store stays valid. |
| Controllers.EmployeesController.DeleteEmployee | Controllers/EmployeesController.cs:234-248 | NoContent exactly when the key is stored; then exactly that employee and its tree are gone; otherwise NotFound and nothing changes. |

## Left out

- The full-text search filter of GetEmployees: it runs PostgreSQL's `to_tsvector`, `plainto_tsquery` and `unaccent`, which are not part of this model. `GetEmployees` takes no search term.
- The mapping of entities back to DTOs in the GET responses: the response bodies are the stored trees.
- HTTP plumbing: routing, form binding, `CreatedAtAction` and response bodies other than the ones above. Outcomes are the `Status` datatype.
- Async I/O, stream copying, lazy-loading proxies and concurrent requests. Each request runs alone. The outcome of a concurrent change is the `conflict` parameter of `PutEmployee`.
- Key generation for positions, tool languages and images: they keep the key the code gives them (the DTO's key, or 0 for a new image). Collisions with rows of other employees, and the database's renumbering of key 0, are not modelled.
- The database's foreign-key check at commit is modelled only for the references to the lookup tables (`ReferencesResolve`); it is checked before the concurrency outcome.
- `EnsureCreated` and the `CREATE EXTENSION` statement in the seeder, and the CDN upload service the controller never calls.
- What AutoMapper does to nested collections when it maps onto an existing entity: the model copies the scalar fields only. The loops handle the children. A new entity is mapped deeply, and that is modelled.
- Image content is one payload of bytes. The `CdnUrl` column and the `Data` bytes the controller writes are the same field here.
- Listing.ToolLanguagesExperience: integers are unbounded. A To - From difference or sum that would overflow PostgreSQL's integer type is not modelled.
- Listing.SortByExperience: employees with equal experience keep their input order. The database promises no order among them.
- Dtos.ToFormFile: the content type of the wrapped file is modelled as empty, since the form file sets none. Null strings and null lists are modelled as empty ones.
- Dtos.EmployeeErrors: a request without `Positions` is modelled as an empty list and gets BadRequest. In the source the list is null, and the distinct-roles rule at DTOs.cs:59 throws on it, so the request gets a server error. The same holds for a position without `ToolLanguages` (DTOs.cs:72, `Dtos.PositionErrors`).
- Dtos.NotBlank: a character is a Unicode scalar value; white space is the set of characters `char.IsWhiteSpace` accepts. `StartsWith("image/")` is an ordinal comparison; the culture-sensitive comparison the framework uses is not modelled.

## Findings

| source | as written | input that shows it | evidently intended | confidence | as-written member | corrected member |
|---|---|---|---|---|---|---|
| Controllers/EmployeesController.cs:88-91 | PostEmployee finds each tool language's image DTOs by a second lookup by key in the request: the first position DTO with the position's key, then in it the first tool-language DTO with the tool language's key. The model's PostEmployee does the same (`PostedEmployee`); `Creation.PostedAgrees` proves it builds the intended tree when sibling keys are distinct. | A valid request with two new positions, both keyed 0, each with one tool language. With equal tool-language keys, the second tool language gets the first one's images. With different keys, `First` throws and the request fails with a server error. | Each tool language takes the images of the DTO it was mapped from, at the same place in the tree. | not executed | Creation.ImageSourceMisdirected | Creation.CreatedEmployeeMirrorsDto |
