# lighthouse in Dafny

A model of the sequential core of `nwidger/lighthouse`, a Go client for the
Lighthouse issue tracker, and of its `lhtogitlab` migration tool, with proofs
of what that code promises.

It covers three groups of code:

- **Resource services** (`tickets`, `projects`, `milestones`, `messages`,
  `bins`). The HTTP round trip is an oracle `server: Request -> Reply`: a
  status plus an already decoded payload. Every operation returns an
  `Outcome`, which is the result together with the requests it sent. That
  makes statements like "no delete is sent when the lookup fails" and "pages
  1, 2, 3, … are requested in order" provable. Also covered:
  - envelope flattening;
  - dispatch between lookup by ID and lookup by name or title;
  - case-insensitive first-match lookup;
  - the `ListAll` pagination loop;
  - the narrow create and update views;
  - request paths and queries;
  - the two hand-written JSON codecs (`AlphabeticalTag` and `StatesList`), over a small JSON value type;
  - the ticket-number parser.
- **The export command's `filename`**: it cuts a name to 20 characters, trims
  it, lower-cases it and replaces every run of characters outside
  `[-a-z0-9_]` with one `-`. Then it squeezes runs of `-` and drops trailing
  `-`.
- **The migration's field mapping**:
  - the Lighthouse-to-GitLab markdown rewriter;
  - the parser that turns state definitions into GitLab labels;
  - label lists;
  - note bodies;
  - ID remapping through the package-level tables;
  - milestone, issue, project and membership options;
  - the de-duplication and ordering of the exported records;
  - project-name sanitising.

Layout: one module per file.

- `wrappers.dfy`: `Option` and `Result`.
- `strings.dfy`: models of the Go `strings` functions the code uses.
- `decimal.dfy`: `strconv.Itoa` and `strconv.ParseInt`.
- `json.dfy`: JSON values.
- `service.dfy`: the request/reply machinery shared by all services.
- One file per service: `tickets.dfy`, `projects.dfy`, `milestones.dfy`, `messages.dfy`, `bins.dfy`.
- `export.dfy`: the export command's `filename`.
- `markdown.dfy`: the markdown rewriter.
- `statelabels.dfy`: the state-definition parser.
- `migration.dfy`: the remaining migration code.

Where the Go code updates state in place, the model keeps that form:
- `AlphabeticalTag.UnmarshalJSON` and `StatesList.UnmarshalJSON` are methods on classes.
- `Create` decodes into the caller's record, held in a `Ref`.
- `ListAll`, the markdown builder, the label parser, both label-list builders, the note assembly and the membership de-duplication are loops with invariants.
- Each of those is proved against a specification function, and the properties are proved as lemmas about that function.

Where the code and its intent differ, the model follows the code. Ticket
labels keep empty tag names: `lhTicketToLabels` does not filter them, and
only the version labels do. `AlphabeticalTag.UnmarshalJSON` keeps a string
tag it has already stored when the count is not a number.

## Model

| member | source | states |
|---|---|---|
| Service.Call | tickets/tickets.go:410-429 | one request is sent; the call succeeds exactly when a reply arrives with the wanted status and a payload that decodes, and the result is that decoded payload |
| Service.Unwrap | tickets/tickets.go:265-272 | flattening an `{"xs":[{"x":…}]}` envelope keeps length and order: entry i is the inner record of envelope entry i |
| Service.FindFold | projects/projects.go:209-221 | the index found is the first whose key equals the name case-insensitively; there is none exactly when no key matches |
| Service.Pick | projects/projects.go:209-221 | a lookup by name sends nothing more, returns the first case-insensitive match, and otherwise fails with "no such …" naming the kind and the name |
| Service.FirstEnd | tickets/tickets.go:350-360 | the page where the loop stops is the first page at or after the start that is empty or fails |
| Service.ListAll | tickets/tickets.go:342-363 | the loop's result and requests equal the all-pages specification: pages 1, 2, … up to the first empty or failing page; the items are the earlier pages concatenated in order; any error returns an error and no items |
| Service.SentOnePerPage | tickets/tickets.go:350-360 | paging sends exactly one request per page, in page order |
| Service.CreateInto | bins/bins.go:180-193 | create sends one request; success requires status 201 and a payload that decodes; on success the caller's record holds the decoded value and the same reference is returned; on failure the record is unchanged |
| Json.Truncate | tickets/tickets.go:122-126 | `int(f)` truncates toward zero |
| Decimal.ParseItoa | tickets/tickets.go:616-626 | `ParseInt` reads back every 64-bit value `Itoa` writes |
| Decimal.ParseIntSyntax | tickets/tickets.go:621 | an accepted number is an optional sign followed by decimal digits, at least one |
| Tickets.NewService | tickets/tickets.go:32-37 | the base path is `<root>/projects/<id>/tickets` |
| Tickets.Number | tickets/tickets.go:616-626 | a failure always carries the original input, including its `#` |
| Tickets.NumberOfItoa | tickets/tickets.go:616-626 | every 64-bit number, written plainly or behind one `#`, parses back to itself |
| Tickets.NumberRejects | tickets/tickets.go:616-626 | the empty string, a lone `#` and anything starting with `##` are rejected, so at most one `#` is stripped |
| Tickets.NumberSyntax | tickets/tickets.go:616-626 | an accepted input is at most one `#`, then an optional sign, then decimal digits |
| Tickets.AsArray | tickets/tickets.go:106-110 | only a JSON array or null unmarshals into a `[]interface{}` |
| Tickets.AlphabeticalTag.UnmarshalJSON | tickets/tickets.go:94-129 | the new tag, count and error are those of the decoding specification applied to the old fields (nil data leaves them as they were) |
| Tickets.MarshalTag | tickets/tickets.go:84-92 | the result is the pair `[tag, count]`, or `["", 0]` for nil |
| Tickets.TagRoundTrip | tickets/tickets.go:84-129 | for every count a float64 holds exactly (magnitude at most 2^53), unmarshalling a marshalled tag gives back its tag and count with no error, whatever the fields held before |
| Tickets.TagErrors | tickets/tickets.go:103-125 | it fails exactly when the data is not nil and not a 2-element array of a string and a number; on failure the count is 0, and the tag is "" unless only the count was bad |
| Tickets.ListQueryParams | tickets/tickets.go:300-318 | nil options give no query; otherwise `q`, `limit` and `page` are present exactly when Query is non-empty, Limit > 0 or Page > 0, with those values |
| Tickets.List | tickets/tickets.go:299-338 | one GET to the list path; success needs status 200 and a list payload, and returns its flattened tickets |
| Tickets.PageQuery | tickets/tickets.go:344-351 | page p of `ListAll` asks for page p; it passes Query and Limit on unchanged and ignores the caller's Page |
| Tickets.ListAll | tickets/tickets.go:342-363 | the all-pages specification over `List`; request i asks for page i+1 |
| Tickets.CreateViewFields | tickets/tickets.go:432-441 | the create view depends on Title, Body, State, AssignedUserID, MilestoneID and Tag, and on nothing else |
| Tickets.CreateViewOmits | tickets/tickets.go:432-441 | an empty state and a zero assignee or milestone are left out of the body |
| Tickets.Create | tickets/tickets.go:432-470 | POST of the create view to `<base>.json`; success exactly when the reply has status 201 and carries a ticket, which then overwrites the caller's ticket and is returned; on failure it is unchanged |
| Tickets.BulkEdit | tickets/tickets.go:588-613 | one POST of query, command and token to the project's `bulk_edit.json`; success needs status 200 |
| Tickets.BulkEditGoesToProject | tickets/tickets.go:34 | the bulk-edit path is the base path without its trailing `/tickets`, plus `/bulk_edit.json` |
| Projects.NewService | projects/projects.go:23-28 | the base path is `<root>/projects` |
| Projects.EncodeStates | projects/projects.go:55-58 | a states list marshals to one JSON string, the list joined by commas |
| Projects.StatesList.UnmarshalJSON | projects/projects.go:38-53 | the new list and error are those of the decoding specification applied to the old list |
| Projects.DecodeStatesShape | projects/projects.go:38-53 | non-string JSON and malformed data are errors; nil data or an error leaves the list untouched; otherwise the fields are non-empty and hold no comma |
| Projects.StatesRoundTrip | projects/projects.go:38-58 | unmarshalling a marshalled list gives it back when every element is non-empty and comma-free |
| Projects.List | projects/projects.go:176-195 | one GET to `<base>.json`; success needs status 200 and returns the flattened projects in order |
| Projects.GetByID | projects/projects.go:227-246 | one GET to `<base>/<id>.json`; success exactly when the reply has status 200 and carries one project, which is the value |
| Projects.GetByName | projects/projects.go:209-221 | returns the first project in list order whose name matches case-insensitively; otherwise the list's error, or "no such project" when no name matches |
| Projects.Get | projects/projects.go:197-203 | an argument that parses as an ID goes to the by-ID path, anything else to the by-name lookup |
| Projects.DeleteByID | projects/projects.go:324-337 | one DELETE to `<base>/<id>.json`; success needs status 200 |
| Projects.DeleteByName | projects/projects.go:339-345 | deletes exactly the ID of the project found; no delete is sent when the lookup fails |
| Projects.Delete | projects/projects.go:316-322 | a parsed ID is exactly `DeleteByID` on it; otherwise exactly `DeleteByName` |
| Projects.MembershipsByID | projects/projects.go:363-382 | one GET to `<base>/<id>/memberships.json`; success exactly when the reply has status 200 and carries memberships, which come back flattened in envelope order |
| Projects.MembershipsByName | projects/projects.go:355-361 | a failed name lookup yields its error with nothing more sent; otherwise the result is exactly `MembershipsByID` on the found project's ID, sent after the list request |
| Projects.Memberships | projects/projects.go:347-353 | a parsed ID is exactly `MembershipsByID` on it; otherwise exactly `MembershipsByName` |
| Projects.ViewFields | projects/projects.go:249-256 | the create and update body depends on Archived, Name and Public, and on nothing else |
| Projects.Create | projects/projects.go:249-284 | POST of that view; success exactly when the reply has status 201 and carries a project, which then overwrites the caller's project and is returned; failure leaves it unchanged |
| Projects.Update | projects/projects.go:287-314 | PUT of that view to the project's path; success needs status 200 |
| Messages.NewService | messages/messages.go:23-28 | the base path is `<root>/projects/<id>/messages` |
| Messages.List | messages/messages.go:137-156 | one GET to the list path; success needs status 200 and returns the flattened messages in order |
| Messages.GetByID | messages/messages.go:217-236 | one GET to `<base>/<id>.json`; success exactly when the reply has status 200 and carries one message, which is the value |
| Messages.GetByTitle | messages/messages.go:203-215 | scans one list result and returns the first case-insensitive title match; otherwise "no such message" |
| Messages.Get | messages/messages.go:191-197 | dispatches on whether the argument parses as an ID |
| Messages.DeleteByID | messages/messages.go:339-352 | one DELETE to the message's path; success needs status 200 |
| Messages.DeleteByTitle | messages/messages.go:354-360 | deletes exactly the ID of the message found; no delete is sent when the lookup fails |
| Messages.Delete | messages/messages.go:331-337 | a parsed ID is exactly `DeleteByID` on it; otherwise exactly `DeleteByTitle` |
| Messages.ViewFields | messages/messages.go:163-169 | message and comment bodies depend on Body and Title, and on nothing else |
| Messages.Create | messages/messages.go:239-273 | POST of Body and Title; success exactly when the reply has status 201 and carries a message, which then overwrites the caller's message and is returned; failure leaves it unchanged |
| Messages.Update | messages/messages.go:163-189 | PUT of Body and Title to the message's path; success needs status 200 |
| Messages.CreateCommentByID | messages/messages.go:285-320 | POST of the comment's Body and Title to `<base>/<id>/comments.json`; success needs status 201 and returns a freshly decoded message |
| Messages.CreateCommentByTitle | messages/messages.go:323-329 | comments on the ID of the message found; nothing more is sent when the lookup fails |
| Messages.CreateComment | messages/messages.go:276-282 | a parsed ID is exactly `CreateCommentByID` on it; otherwise exactly `CreateCommentByTitle` |
| Milestones.NewService | milestones/milestones.go:25-30 | the base path is `<root>/projects/<id>/milestones` |
| Milestones.ListQuery | milestones/milestones.go:134-146 | a `page` parameter is added exactly when Page > 0, and nothing else is |
| Milestones.List | milestones/milestones.go:134-167 | one GET with that query; success needs status 200 and returns the flattened milestones in order |
| Milestones.ListAll | milestones/milestones.go:111-132 | the all-pages specification; request i asks for page i+1 |
| Milestones.GetByID | milestones/milestones.go:229-248 | one GET to `<base>/<id>.json`; success exactly when the reply has status 200 and carries one milestone, which is the value |
| Milestones.GetByTitle | milestones/milestones.go:215-227 | searches all pages and returns the first case-insensitive title match; otherwise the paging error, or "no such milestone" |
| Milestones.Get | milestones/milestones.go:203-209 | a parsed ID is exactly `GetByID` on it; otherwise the paging's requests, the paging's error, or the first case-insensitive title match, or "no such milestone" when none matches |
| Milestones.CloseByID | milestones/milestones.go:296-309 | one PUT to `<base>/<id>/close.json`; success needs status 200 |
| Milestones.OpenByID | milestones/milestones.go:327-340 | one PUT to `<base>/<id>/open.json`; success needs status 200 |
| Milestones.DeleteByID | milestones/milestones.go:358-371 | one DELETE to `<base>/<id>.json`; success needs status 200 |
| Milestones.ActOnTitle | milestones/milestones.go:311-317 | the title lookup, then the action on the found ID; a failing lookup returns its error and sends nothing more |
| Milestones.CloseByTitle | milestones/milestones.go:311-317 | when the paging finds a title match, the result is exactly `CloseByID` on its ID, sent after the pages; otherwise the paging's error or "no such milestone", with nothing sent after the pages |
| Milestones.OpenByTitle | milestones/milestones.go:342-348 | when the paging finds a title match, the result is exactly `OpenByID` on its ID, sent after the pages; otherwise the paging's error or "no such milestone", with nothing sent after the pages |
| Milestones.DeleteByTitle | milestones/milestones.go:373-379 | when the paging finds a title match, the result is exactly `DeleteByID` on its ID, sent after the pages; otherwise the paging's error or "no such milestone", with nothing sent after the pages |
| Milestones.Close | milestones/milestones.go:288-294 | a parsed ID is exactly `CloseByID` on it; a title gives exactly what `CloseByTitle` promises |
| Milestones.Open | milestones/milestones.go:319-325 | a parsed ID is exactly `OpenByID` on it; a title gives exactly what `OpenByTitle` promises |
| Milestones.Delete | milestones/milestones.go:350-356 | a parsed ID is exactly `DeleteByID` on it; a title gives exactly what `DeleteByTitle` promises |
| Milestones.ViewFields | milestones/milestones.go:174-181 | the create and update body depends on Goals, Title and DueOn, and on nothing else |
| Milestones.Create | milestones/milestones.go:251-286 | POST of that view; success exactly when the reply has status 201 and carries a milestone, which then overwrites the caller's milestone and is returned; failure leaves it unchanged |
| Milestones.Update | milestones/milestones.go:174-201 | PUT of that view to the milestone's path; success needs status 200 |
| Bins.NewService | bins/bins.go:23-28 | the base path is `<root>/projects/<id>/bins` |
| Bins.List | bins/bins.go:94-113 | one GET to the list path; success needs status 200 and returns the flattened bins in order |
| Bins.GetByID | bins/bins.go:123-142 | one GET to `<base>/<id>.json`; success exactly when the reply has status 200 and carries one bin, which is the value |
| Bins.GetByName | bins/bins.go:144-156 | returns the first case-insensitive name match; otherwise "no such bin" |
| Bins.Get | bins/bins.go:115-121 | dispatches on whether the argument parses as an ID |
| Bins.DeleteByID | bins/bins.go:234-247 | one DELETE to the bin's path; success needs status 200 |
| Bins.DeleteByName | bins/bins.go:249-255 | deletes exactly the found bin's ID; only the list request is sent, and no delete, when the lookup fails |
| Bins.Delete | bins/bins.go:226-232 | a parsed ID is exactly `DeleteByID` on it; otherwise exactly `DeleteByName` |
| Bins.BodyOf | bins/bins.go:159-166 | the body is wrapped under the key `ticket_bin` and carries Default, Name and Query |
| Bins.BodyFields | bins/bins.go:159-166 | that body depends on Default, Name and Query, and on nothing else |
| Bins.Create | bins/bins.go:159-194 | POST of that body; success exactly when the reply has status 201 and carries a bin, which then replaces the caller's bin and is returned; failure leaves it unchanged |
| Bins.Update | bins/bins.go:197-224 | PUT of that body to the bin's path; success needs status 200 |
| Export.ReplaceRuns | cmd/lh/cmd/export.go:201-211 | replacing each maximal run of a class by one separator never lengthens the string; every character of the result is the separator or outside the class; with a separator in the class, no two neighbours are in it |
| Export.ReplaceRunsKeeps | cmd/lh/cmd/export.go:201-211 | every character of the result is the separator or a character of the input, so a property they all share holds of the result |
| Export.Cut | cmd/lh/cmd/export.go:197-199 | the result is a prefix of the name, of length 20 when the name is longer and the whole name otherwise |
| Export.Clean | cmd/lh/cmd/export.go:200-206 | trimming, lower-casing and replacing disallowed runs leaves only `[-a-z0-9_]` and never lengthens |
| Export.Squeeze | cmd/lh/cmd/export.go:207-211 | squeezing `-` runs keeps the alphabet and leaves no `--` |
| Export.Filename | cmd/lh/cmd/export.go:196-214 | at most 20 characters, only `a-z`, `0-9`, `_` and `-`, no `--`, no trailing `-` |
| Export.FilenameFixpoint | cmd/lh/cmd/export.go:196-214 | a name that already has that shape comes back unchanged, so a leading `-` is kept |
| Export.FilenameIdempotent | cmd/lh/cmd/export.go:196-214 | `filename(filename(s)) == filename(s)` |
| Export.FilenameIgnoresPadding | cmd/lh/cmd/export.go:200 | white space at the ends of a short name is trimmed rather than turned into hyphens |
| Export.FilenameTruncates | cmd/lh/cmd/export.go:197-199 | only the first 20 characters of a long name matter |
| Markdown.ReplaceTripleLeavesNone | cmd/lhtogitlab/main.go:812 | after replacing `@@@` left to right, no `@@@` is left |
| Markdown.ReplaceTripleRoundTrip | cmd/lhtogitlab/main.go:812 | on text without backticks, replacing back recovers the original, so nothing but the fences changed |
| Markdown.CloseSound | cmd/lhtogitlab/main.go:805 | a span the matcher finds is `@x@` where x has at least 2 characters, no `@` or line break, and no white space at its ends |
| Markdown.CloseComplete | cmd/lhtogitlab/main.go:805 | every such span starting at the current position is the one the matcher finds |
| Markdown.ConvertOnlySwaps | cmd/lhtogitlab/main.go:815-830 | the conversion changes nothing but `@` into a backtick |
| Markdown.ConvertCopies | cmd/lhtogitlab/main.go:821-830 | text without `@` between spans is copied verbatim and in order |
| Markdown.ConvertSpan | cmd/lhtogitlab/main.go:821-830 | a leading span `@x@` becomes `` `x` `` and the rest is converted after it |
| Markdown.FindAllSound | cmd/lhtogitlab/main.go:815 | every match the scan reports from a position on is a span of the text at or after that position, and the matches are in order and do not overlap |
| Markdown.FirstMatch | cmd/lhtogitlab/main.go:805-815 | the first match from a position on starts at the first code span there, and the scan from its end reports exactly the remaining matches |
| Markdown.NextMatch | cmd/lhtogitlab/main.go:822-823 | the reference conversion of the text from `prev` on is the text up to the next match, its group between backticks, and the conversion after the match |
| Markdown.BuilderTail | cmd/lhtogitlab/main.go:824-826 | past the last match the conversion copies the rest of the text |
| Markdown.ToGitLab | cmd/lhtogitlab/main.go:807-833 | the rewrite keeps the text's length |
| Markdown.ToGitLabBlank | cmd/lhtogitlab/main.go:808-810 | white-space-only text comes back unchanged |
| Markdown.LhToGitLabMarkdown | cmd/lhtogitlab/main.go:807-833 | the builder loop with its moving `prev` index computes the rewrite specification |
| StateLabels.MatchLine | cmd/lhtogitlab/main.go:539 | a line that matches has a non-empty, all-hex colour group |
| StateLabels.MatchLineComplete | cmd/lhtogitlab/main.go:539 | every line of the shape `name/hex spaces [#desc]` (name without `/`) matches, with the name group, the colour and the description group of that line |
| StateLabels.MatchLineSound | cmd/lhtogitlab/main.go:539 | every line that matches has that shape |
| StateLabels.LabelColor | cmd/lhtogitlab/main.go:558-583 | a 3-digit colour has each digit doubled, a 6-digit colour is kept, both are prefixed with `#`, and any other length gives `#428BCA` |
| StateLabels.LabelColorWellFormed | cmd/lhtogitlab/main.go:558-583 | a hex colour group always yields `#` followed by six hex digits |
| StateLabels.Description | cmd/lhtogitlab/main.go:567-577 | the description is the trimmed group, or empty when that is empty or one of the five help texts |
| StateLabels.NameTrims | cmd/lhtogitlab/main.go:555-556 | trimming the name group gives the trimmed text before the first `/` |
| StateLabels.LabelOfShape | cmd/lhtogitlab/main.go:544-590 | a line `name/hex spaces [#desc]` yields the label `stateKey + TrimSpace(name)`, its colour and its description |
| StateLabels.LabelsOfSound | cmd/lhtogitlab/main.go:544-590 | every label comes from a matching line |
| StateLabels.LabelsOfComplete | cmd/lhtogitlab/main.go:544-590 | every matching line contributes its label, in line order |
| StateLabels.LabelsOfAll | cmd/lhtogitlab/main.go:544-590 | there is one label per line exactly when every line matches |
| StateLabels.ProjectStatesToCreateLabels | cmd/lhtogitlab/main.go:542-592 | the loop returns the labels of the matching lines, at most one per line, and always reports ok |
| StateLabels.ProjectToCreateLabels | cmd/lhtogitlab/main.go:522-536 | the open states' labels followed by the closed states' labels |
| Migration.ByID | cmd/lhtogitlab/main.go:411-453 | key 0, a missing key and a nil entry all miss; a hit returns the table's entry |
| Migration.UserByUsername | cmd/lhtogitlab/main.go:455-464 | the empty name, a missing name and a nil entry all miss |
| Migration.SudoByUserID | cmd/lhtogitlab/main.go:466-473 | a sudo option for the mapped user when the lookup hits, and no option otherwise |
| Migration.SudoByUsername | cmd/lhtogitlab/main.go:475-482 | a sudo option for the mapped user when the name lookup hits, and no option otherwise |
| Migration.Assignees | cmd/lhtogitlab/main.go:652-660 | `[0]` for source ID 0, `[mappedID]` when the lookup hits, and empty otherwise |
| Migration.MilestoneRef | cmd/lhtogitlab/main.go:661-669 | 0 for source ID 0, the mapped ID when the lookup hits, and absent otherwise |
| Migration.ScopedLabel | cmd/lhtogitlab/main.go:782 | the state label is `stateKey + "::" + state` |
| Migration.TicketToLabels | cmd/lhtogitlab/main.go:777-784 | the loop yields the tag names in order, then the state label |
| Migration.VersionToLabels | cmd/lhtogitlab/main.go:786-803 | the loop yields the non-empty fields of the version's tag record in order, then the state label |
| Migration.LabelListsShape | cmd/lhtogitlab/main.go:777-803 | both lists end with exactly `stateKey::state`; a ticket's list starts with its tags; a version's other labels are non-empty fields of its record and are all of them when none is empty |
| Migration.VersionLabelsFallBack | cmd/lhtogitlab/main.go:791-794 | when the CSV read fails, the labels are the white-space separated words of the tag, none holding white space |
| Migration.VersionToUpdateIssue | cmd/lhtogitlab/main.go:699-741 | sudo by the version's user; its title, update time, remapped assignee and milestone, and labels; "close" exactly when the version is closed, otherwise "reopen" |
| Migration.TicketToCreateIssue | cmd/lhtogitlab/main.go:645-697 | sudo by the creator; number, title, converted body and creation time; the ticket's assignee, milestone and labels, replaced by the first version's when the ticket has versions |
| Migration.VersionToCreateNote | cmd/lhtogitlab/main.go:743-770 | the body is the parts assembled with a blank line before each part that follows text; the version body is omitted for the current version; the note is suppressed exactly when that body is white space |
| Migration.AssembleBlank | cmd/lhtogitlab/main.go:756-764 | an assembled note is blank exactly when every part is blank |
| Migration.AssembleJoin | cmd/lhtogitlab/main.go:756-764 | with no empty part, the note is the parts joined by `"\n\n"` |
| Migration.NoteOmitsCurrentBody | cmd/lhtogitlab/main.go:750-755 | the current version's note holds only the files; another version without files gets just its converted body |
| Migration.ProjectToCreate | cmd/lhtogitlab/main.go:504-520 | a private project under the sanitised name, in the group of that name when one exists, with the converted description |
| Migration.MembershipToAddMember | cmd/lhtogitlab/main.go:594-605 | the mapped user as maintainer, and nothing (not ok) when the user was not migrated |
| Migration.MilestoneToCreate | cmd/lhtogitlab/main.go:607-626 | sudo by user name; the start date is CreatedAt; the due date is DueOn exactly when DueOn is present and CreatedAt is absent or earlier; the description is the converted goals |
| Migration.MilestoneDatesOrdered | cmd/lhtogitlab/main.go:611-619 | when both dates are set, the start is strictly before the due date |
| Migration.MilestoneToUpdate | cmd/lhtogitlab/main.go:628-643 | "close" exactly when CompletedAt is present, otherwise "activate" |
| Migration.SortBy | cmd/lhtogitlab/main.go:1052 | the exported lists come out in ascending key order and are a permutation of their input |
| Migration.DedupMemberships | cmd/lhtogitlab/main.go:1021-1030 | the loop over the `seen` set computes the first-per-user specification |
| Migration.FirstPerUserExact | cmd/lhtogitlab/main.go:1021-1030 | the kept memberships cover every user of the input exactly once, and each is that user's first membership |
| Migration.SanitizeProjectName | cmd/lhtogitlab/main.go:407-409 | the result has no apostrophe and keeps every other character with its count; SanitizeAppend and SanitizeSingle fix their order |
| Migration.SanitizeAppend | cmd/lhtogitlab/main.go:407-409 | a concatenation is sanitised piece by piece, in order |
| Migration.SanitizeSingle | cmd/lhtogitlab/main.go:407-409 | a lone apostrophe is removed and any other character kept, so with SanitizeAppend the kept characters keep their order |
| Migration.SanitizeIdempotent | cmd/lhtogitlab/main.go:407-409 | sanitising twice is sanitising once |

## Left out

- HTTP transport: `RoundTrip`, `CheckResponse`, the response-body decoders and `lighthouse.ID` are not part of this model.
  - A call becomes the oracle `server` plus a status check.
  - An ID parse becomes the parameter `parseID`.
- Ticket attachments (`AddAttachment`, `GetAttachment`) are multipart and streaming I/O. `lhAttachmentToUploadFile` only pairs a file name with the uploader's sudo option.
- The ticket service's `Get`, `GetByNumber`, `New`, `Update`, `Delete` and `DeleteByNumber` are not modelled. They repeat the single-request pattern modelled for the other services.
- The `New` constructors of all services return an empty record and are not modelled.
- Library behaviour of `encoding/json`, `url.Parse`, `url.Values.Encode` and `encoding/csv`:
  - JSON input is a small value type, already parsed or `Malformed`.
  - A query is a list of key/value pairs. `url.Parse`'s error return and its re-serialisation of the list path (tickets/tickets.go:302-305, 316-317) are not modelled: the path goes out as built.
  - The CSV reader of `lhTicketVersionToLabels` is an abstract splitter parameter. `None` means it reported an error.
- Tickets.AlphabeticalTag.UnmarshalJSON: the count is a JSON number modelled as a real truncated toward zero. Floating-point rounding of large counts is not modelled.
- Service.ListAll, Tickets.ListAll, Milestones.ListAll and the milestone `*ByTitle` methods take a ghost page `stop`, known to be empty or failing.
  - The Go loop has no bound and runs forever against a server that never returns an empty page.
  - The model covers only servers that eventually end the paging.
- Service.CreateInto: a decode that fails part-way may leave the caller's record partly overwritten in Go. The model leaves the record unchanged on every failure, and on success replaces the whole record with the decoded one.
- Service.SameFold: case-insensitive comparison lower-cases ASCII letters only. Unicode case folding is not modelled.
- Export.Filename: truncates to 20 characters, not 20 bytes. The two agree on ASCII input only.
- File and archive I/O is not modelled. This covers:
  - the export command's tar/gzip writing;
  - `readLHExport` unarchiving, globbing and decoding.
  - Only its membership de-duplication and its sorts are modelled.
- Migration.SortBy: `sort.Slice` is not stable. The model picks one order among equal keys and promises only order and permutation, as Go does.
- The GitLab client calls, the `main` driver, its flags, the delete mode, the signal-handling goroutines and the CLI command registration are not modelled. The package-level tables are parameters, not globals that `main` fills.
- `lhUserToCreateUser` copies fields of an already-created GitLab user record, which is not part of this model (only GitLab IDs are).
- Times are integer timestamps. Only presence, equality and strict "after" are used.
- Nil records, nil option lists and nil slices: Go's `nil` and empty lists are both the empty sequence.

