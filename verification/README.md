# Mock API server: a Dafny model of its handlers

The system is a small Go HTTP server (`main.go`) with four stub endpoints:

- `/software-details` echoes `username` and `email` with a fixed two-entry software catalog;
- `/autocomplete` filters a fixed four-entry user directory by the query `q`;
- `/post-user-details` echoes a posted JSON object;
- `/servicenow-tickets` echoes `username` with two fixed tickets.

The only real logic is the autocomplete filter and its `contains` helper. The helper's comment says it tests for a substring. Its code compares the leading `len(query)` bytes of the value with the query, so it is a prefix test. The model follows the code. It proves that the helper is exactly a prefix test, and that a substring test would give a different answer.

Modules:

- `Prefix` (`prefix.dfy`): the `contains` helper as written. It is related to a character-by-character prefix test, to Dafny's prefix relation on sequences and to a substring test.
- `Autocomplete` (`autocomplete.dfy`): the directory, the match condition of the loop, the filter as a recursive function, and the loop itself as a method. Lemmas cover order, exactness, duplicates and concrete queries.
- `Http` (`http.dfy`): the request (method, parsed query, raw body), `url.Values.Get`, the decoded JSON value and the status codes.
- `Handlers` (`handlers.dfy`): the four handlers, each a pure function from a request to a response. A response is `Error(status, message)` or `Ok(payload)`.

Each request is the method, the parsed query (`map<string, seq<string>>`, every key with its values in order) and the raw body. `QueryGet` reads a key as Go's `Query().Get` does. An absent key, or a key with no values, reads as `""`. The JSON decoder of the user-details handler is a parameter, `decode: string -> Option<JsonObject>`. This is how the model states that the 405 answer is decided before the body or the decoder is consulted.

For an empty query, or a query that matches nothing, the autocomplete result slice stays `nil`. Go's encoder writes a nil slice as `"results": null`, not as `"results": []`. The behaviour is consistent: every empty result is written the same way. The model represents it as the empty sequence.

## Model

| member | source | states |
|---|---|---|
| Prefix.Contains | main.go:81-84 | the empty query is accepted by every value; a query longer than the value is never accepted |
| Prefix.ContainsIsPrefix | main.go:83 | the helper holds exactly when the query is a prefix of the value (`query <= value`) |
| Prefix.ContainsIsStartsWith | main.go:81-84 | the helper agrees, on every input, with a character-by-character comparison that starts at position 0 |
| Prefix.ContainsImpliesSubstring | main.go:81-84 | every prefix match is also a substring match, at offset 0 |
| Prefix.SubstringIsNotContains | main.go:81-84 | the converse fails: "john" occurs in "xjohn" but the helper rejects it, so the helper is not the substring test its comment names |
| Prefix.MismatchRejects | main.go:83 | one position where the value differs from the query, or has already ended, rules the match out |
| Prefix.AgreementAccepts | main.go:83 | a value that agrees with the query at every position of the query is accepted |
| Prefix.ContainsAnyExtension | main.go:83 | a query is accepted by itself followed by any suffix |
| Autocomplete.Matches | main.go:69 | the loop's guard holds iff the query is non-empty and is a prefix of the username or of the email |
| Autocomplete.Filter | main.go:67-72 | an entry is in the result iff it is in the table and matches; the result is no longer than the table |
| Autocomplete.CollectMatches | main.go:67-72 | the loop that appends matching entries in table order yields exactly the recursive filter's result |
| Autocomplete.FilterAppend | main.go:68-71 | a table extended by one entry extends the result by that entry exactly when it matches |
| Autocomplete.FilterIsSubsequence | main.go:60-72 | the result is a subsequence of the table: nothing is reordered |
| Autocomplete.FilterKeepsDistinct | main.go:60-72 | a table without duplicates gives a result without duplicates |
| Autocomplete.EmptyQueryKeepsNothing | main.go:69 | the empty query gives no results, whatever the table holds |
| Autocomplete.FilterExact | main.go:68-71 | for a non-empty query, an entry is kept iff it is in the table and the query prefixes its username or its email |
| Autocomplete.FilterFour | main.go:60-72 | over a four-entry table, the result is the matching entries, in table order |
| Autocomplete.DirectoryDistinct | main.go:60-65 | the directory holds johndoe, janedoe, johnsmith and janesmith in that order, each with email `<username>@example.com`, and has no duplicates |
| Autocomplete.JohnQuery | main.go:60-71 | "john" gives johndoe then johnsmith and excludes janedoe and janesmith |
| Autocomplete.EmailOnlyQuery | main.go:69 | "johndoe@" is longer than the username "johndoe" but still selects that entry through its email |
| Autocomplete.EmailsContainExample | main.go:61-64 | every email in the directory contains "example" |
| Autocomplete.ExampleMatchesNothing | main.go:60-72 | "example" selects no entry, although every email contains it |
| Http.QueryGet | main.go:25-26 | a present key with values reads as its first value; an absent key, or a key with an empty value list, reads as the empty string |
| Http.QueryGetFirstWins | main.go:25-26 | a repeated parameter reads as its first value, and adding it leaves every other key's reading unchanged |
| Handlers.SoftwareDetails | main.go:24-55 | status 400 with "Username and email are required" iff `username` or `email` reads empty; otherwise both first values are echoed with the fixed catalog |
| Handlers.SoftwareCatalogEntries | main.go:37-50 | the catalog is exactly GoLang 1.20.3 then Visual Studio Code 1.76.2, with their links |
| Handlers.AutocompleteHandler | main.go:58-79 | always 200; results are exactly the matching directory entries, a duplicate-free subsequence of the directory, empty for an empty `q` |
| Handlers.PostUserDetails | main.go:87-108 | 405 for every method but POST; 400 for a POST whose body does not decode; otherwise the decoded object unchanged under `details` |
| Handlers.ServiceNowTickets | main.go:111-130 | status 400 with "Username is required" iff `username` reads empty; otherwise its first value is echoed with the two fixed tickets |
| Handlers.TicketCatalogEntries | main.go:122-125 | the ticket list is exactly INC0012345 (Resolved) then INC0012346 (Open), with their descriptions |
| Handlers.SoftwareDetailsReadsQueryOnly | main.go:24-31 | two requests with the same query get the same software-details answer, whatever their method or body |
| Handlers.SoftwareDetailsMissingParameter | main.go:25-30 | a request without a `username` or an `email` parameter gets 400 |
| Handlers.SoftwareDetailsEcho | main.go:33-51 | any non-empty username and email are echoed unchanged with exactly the two catalog entries |
| Handlers.MethodCheckedFirst | main.go:88-91 | for a method other than POST, the answer is 405 whatever the body, the query or the decoder |
| Handlers.PostUserDetailsStatuses | main.go:88-104 | the status is 200, 400 or 405, and it is 405 exactly when the method is not POST |
| Handlers.TicketsForAlice | main.go:112-126 | `username=alice` gets both tickets with "alice" echoed; a request without `username` gets 400 |
| Handlers.AutocompleteJohn | main.go:58-79 | `q=john` gets johndoe then johnsmith |

## Left out

- Process start-up, route registration and `ListenAndServe` (main.go:10-21) are socket I/O. Each handler is modelled as its own function.
- JSON encoding of responses and the `Content-Type` header (main.go:53-54, 74-78, 106-107, 128-129) are library serialisation. A response is an abstract `Payload`, and every `Ok` stands for status 200 with `"success": true`.
- `http.Error` also writes a trailing newline and a `text/plain` content type. The model keeps only the status and the message text.
- JSON decoding of the posted body (main.go:93-94) is a library call. It is a parameter of the model. Its corner cases are therefore not modelled: a body of `null` decodes without error into a nil map, which is echoed as `null`, and trailing data after the first JSON value is ignored.
- JSON numbers keep their literal text. The decoder's conversion to 64-bit floating point is not modelled.
- Parsing the raw URL into query values is library code. The model starts from the parsed `map<string, seq<string>>`.
- Strings are sequences of characters, while Go compares bytes. The two agree on the ASCII directory and on any well-formed UTF-8 query. `Prefix.Contains` is generic over the element type and reads the same over bytes.
- Concurrent requests are not modelled. The handlers share no mutable state.
