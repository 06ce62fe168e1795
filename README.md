# PocketSage backend core, modelled in Dafny

PocketSage is a health-assistant web backend. A signed-up user can:

- chat with a medical assistant, grounded by web search, that takes their health profile into account;
- keep doctor appointments and upload an appointment's audio, which is transcribed and summarised as a SOAP note and as a structured clinical record;
- look up medical facilities near a location.

Accounts, chat sessions and appointments live in a document store. Users and appointments are also mirrored into a graph database.

This project models the stateful logic of the request handlers over an abstract document store. Each collection is a map from record id to record; chats and appointments carry their owner's `user_id`. The model proves what each handler promises. The outside services are oracles passed in as function parameters:

- the language model (`Generator`, `summarize`, `extract`);
- the speech-to-text provider (`transcribe`);
- the facility search (`overpass`) and the map link (`mapsUrl`).

Wall-clock readings are explicit `Time` parameters. The ids the store assigns are parameters that are fresh for their collection.

One module per source file:

| file | module | form |
|---|---|---|
| common.dfy | `Common` | Option/Result, HTTP errors, partial-update fields, string helpers |
| credentials.dfy | `Credentials` | UTF-8 encoding, the 72-byte bcrypt key, salted digests and access tokens |
| schemas.dfy | `Schemas` | record types, ObjectId parsing, field constraints |
| store.dfy | `DocumentStore` | `Collection<D>` class and the owner-filtered, sorted query |
| graph_mirror.dfy | `GraphMirror` | graph as keyed node maps plus an edge set; Cypher `MERGE`/`SET` semantics; the `Neo4jDriver` class |
| gemini_service.dfy | `GeminiService` | context window, citations, system prompt, summary fallbacks |
| chat_router.dfy | `ChatRouter` | chat turn, listing, rename, delete |
| appointments_router.dfy | `AppointmentsRouter` | appointment CRUD, audio processing and download |
| hospitals_router.dfy | `HospitalsRouter` | facility search fallback and element shaping |
| auth_router.dfy | `AuthRouter` | sign-up and login |
| user_router.dfy | `UserRouter` | profile read and partial update |

Handlers that change the store are methods over `Collection` objects, the `AudioStore` file set and the `Neo4jDriver`. Each method's `ensures` ties the result and the new state to a specification function or states it outright. The lemmas beside them prove what those functions promise.

Notes on how the model reads the code:

- Request-body validation by the schema layer comes first and is modelled as a 422 error, before any id or ownership check.
- The chat endpoints pass the raw `chat_id` to `ObjectId(...)` without checking it first. A malformed id raises, and the model turns that into the framework's 500 response. The appointment endpoints check the id first and answer 400.
- Files on disk are kept by location, the list of directory entries from the root down. `AppointmentsRouter.Resolve` walks an absolute path from the root and a relative one from the process's working directory (`AudioStore.cwd`). It drops `.` and empty segments, and lets `..` take back one directory. The upload's file name is joined to the appointment's directory unchecked, so where the file lands depends on the name:
  - a plain name (no `/`, not `.` or `..`) stays inside the directory: `AppointmentsRouter.PlainFileInDir`;
  - a name starting with `../` lands beside the appointment directories, and deleting the appointment leaves it behind: `AppointmentsRouter.DotDotFileEscapesDir` and `AppointmentsRouter.DeleteKeepsEscapedRecording`;
  - an absolute name makes `os.path.join` discard the directory altogether, so the file lands wherever the name says: `AppointmentsRouter.AbsoluteFileIgnoresDir`. A name such as `/x.wav` lands outside the directory (`AppointmentsRouter.RootFileEscapesDir`). A name that spells out the directory's own absolute path lands inside it and is deleted with it (`AppointmentsRouter.AbsoluteSpellingInDir`, `AppointmentsRouter.DeleteRemovesAbsoluteSpelling`).
- The address expression at api/hospitals_router.py:122 parses as `(addr:full or joined parts) if parts else None`. `addr:full` is therefore ignored whenever there is no house number, street or city. The model keeps this.
- A coordinate of 0 counts as missing, as Python truthiness has it.
- The structured-summary prompt at services/gemini_service.py:172-186 asks for the full clinical shape. Without a configured client, the code at services/gemini_service.py:168-170 returns only `{"error": ...}`. The model follows the code, and `GeminiService.StructuredSummaryFallback` proves that this value lacks the shape.
- A successful structured reply is whatever `json.loads` decodes, returned unchanged (`GeminiService.StructuredSummary`). It is written onto the appointment as it is. When it is not an object, `TranscriptionResponse` rejects it and the request fails with 500 after the write (`AppointmentsRouter.ProcessAppointmentAudio`). Reading that appointment back later fails too: a stored record loads only when its structured summary is null or an object (`AppointmentsRouter.Loadable`), so listing the owner's appointments and patching that one both answer 500.
- The provider's reply text can be missing (`response.text` is None). A chat reply without text cannot become the assistant's message, so the turn fails with 500 before anything is written. A SOAP summary without text is stored as null, and the processing request then fails with 500 after its writes.

## Model

| member | source | states |
|---|---|---|
| ChatRouter.ChatName | api/chat_router.py:69 | a new session's name is the first 50 characters of the prompt (the whole prompt when shorter) |
| ChatRouter.ChatTurn | api/chat_router.py:33-74 | a failed turn writes nothing; no session is lost; with a fresh id, the only stored session that can change is the caller's own one named by the chat id |
| ChatRouter.NewSessionTurn | api/chat_router.py:65-74 | with no chat id and a reply with text, exactly one new session is inserted: owned by the caller, named after the prompt, created and updated at the turn's clock, holding turn 1 as the user's prompt without citations then the reply with its citations; the response carries the new id, turn 1, the text and the citations; no other session changes. A reply without text gives 500 and writes nothing |
| ChatRouter.ExistingSessionTurn | api/chat_router.py:43-63 | a reply without text gives 500 and writes nothing; otherwise, with an owned session, the response carries the reply and its citations and its history grows by exactly a user message then an assistant message; both carry the next turn number; only the assistant message has citations; the name, owner and creation time are kept, `updated_at` is set and no other session changes |
| ChatRouter.RejectedTurn | api/chat_router.py:37-42 | a malformed chat id gives 500; a session that is missing or belongs to someone else gives 404 "Chat session not found."; nothing is written |
| ChatRouter.NextTurnCountsPairs | api/chat_router.py:44-46 | on a history of well-formed turns the next turn number is the number of pairs plus one (1 for an empty history) |
| ChatRouter.TurnPairKeepsPaired | api/chat_router.py:54-55 | appending the pair keeps the history a sequence of well-formed numbered turns |
| ChatRouter.ChatTurnKeepsPaired | api/chat_router.py:33-74 | if every stored session has well-formed turns, it still holds after any chat request |
| ChatRouter.HandleChat | api/chat_router.py:22-82 | the handler's result and the new chat collection are those of the turn specification `ChatTurn`, with the system prompt built from the caller's profile |
| ChatRouter.GetAllChats | api/chat_router.py:85-96 | returns exactly the caller's sessions, each once, latest `updated_at` first |
| ChatRouter.GetSingleChat | api/chat_router.py:98-111 | returns the caller's session with that id; 404 "Chat not found" when missing or not owned; 500 for a malformed id |
| ChatRouter.RenameChat | api/chat_router.py:113-130 | a name outside 1..100 characters gives 422; only an owned session has its name and `updated_at` set, and nothing else changes; otherwise 404 with no write |
| ChatRouter.DeleteChat | api/chat_router.py:132-147 | only an owned session is removed, with the "Chat session {id} deleted successfully." message; otherwise 404 with no write |
| DocumentStore.FindOwnedSortedDesc | api/chat_router.py:92-94 | the owner-filtered query with a descending sort returns every record of that owner exactly once, no other record, sorted by the key descending |
| GeminiService.ProviderRole | services/gemini_service.py:71 | the provider role is "model" exactly for "assistant" and "user" for every other role |
| GeminiService.ContextWindow | services/gemini_service.py:70 | `history[-5:]`: the last min(5, n) messages, in order |
| GeminiService.ChatContents | services/gemini_service.py:70-72 | the request holds the window's messages in order with mapped roles, then the prompt as the final user entry |
| GeminiService.Citations | services/gemini_service.py:98-103 | for chunks that all have a web part with a uri: one citation per chunk in chunk order, with `index = i+1`, the chunk's uri, and its title or "Source [i+1]" |
| GeminiService.CitationAt | services/gemini_service.py:98-103 | citation i has index i+1 and the chunk's URL; a missing or empty title becomes "Source [i+1]", any other title is kept |
| GeminiService.CitationsIncreasing | services/gemini_service.py:98-103 | citation indexes strictly increase along the list |
| GeminiService.BuildCitations | services/gemini_service.py:94-103 | the appending loop fails exactly when some chunk has no web part or no uri, and otherwise builds exactly `Citations(chunks)` |
| GeminiService.ProfileLinesCount | services/gemini_service.py:114-121 | one profile line per truthy field, so at most seven |
| GeminiService.ProfileLinesOrder | services/gemini_service.py:115-121 | each truthy field's line (lists joined by ", ") sits at the position given by how many truthy fields precede it in the order age, gender, weight, height, allergies, issues, medications |
| GeminiService.ProfileSectionDefault | services/gemini_service.py:112-124 | the profile section is the default sentence exactly when no field is truthy |
| GeminiService.PromptFrame | services/gemini_service.py:126 | the system prompt starts with the base prompt, `---` and the context heading, and ends with `---` |
| GeminiService.GetSystemPrompt | services/gemini_service.py:111-126 | the conditional-append construction yields `SystemPromptFor(profile)` |
| GeminiService.ChatReply | services/gemini_service.py:68-109 | a failed generation, or a chunk without a web part or a uri, gives the fixed apology text and no citations; otherwise the model's text, possibly missing, and `Citations` of the chunks |
| GeminiService.SendChat | services/gemini_service.py:86-109 | the provider call and citation loop give `ChatReply` |
| GeminiService.GetAiResponse | services/gemini_service.py:68-109 | the reply is `ChatReply` for the prompt built from the user's profile |
| GeminiService.SoapSummary | services/gemini_service.py:131-161 | no client gives "Error: AI service is not configured."; a provider failure gives the fixed apology; otherwise the model's text, which may be missing |
| GeminiService.StructuredSummary | services/gemini_service.py:164-212 | no client gives the bare error object; a decoded reply is returned unchanged, whatever JSON it is; a failure gives the fallback carrying its message |
| GeminiService.StructuredSummaryFallback | services/gemini_service.py:164-212 | a provider or JSON failure gives the full default object carrying the error text; with no client the result is only `{"error": ...}` and lacks the shape |
| GeminiService.FallbackHasShape | services/gemini_service.py:207-212 | the fallback has all nine top-level keys, the Diet and Follow_up sub-keys, and the error in Additional_Notes |
| AppointmentsRouter.AudioStore.constructor | api/appointments_router.py:155-158 | the files on disk, by location, and the working directory relative paths start from |
| AppointmentsRouter.JoinPath | api/appointments_router.py:154-156 | `os.path.join`: an absolute second part replaces the first; otherwise one separator joins them |
| AppointmentsRouter.AudioDir | api/appointments_router.py:154 | for names that are neither empty nor absolute and do not end in a separator, `audio_records/{user_id}/{appointment_id}` |
| AppointmentsRouter.Resolve | api/appointments_router.py:157 | the location a path names, walked from the root or the working directory: made of plain entries only when the working directory is |
| AppointmentsRouter.RemoveTree | api/appointments_router.py:124-128 | removing the directory removes exactly the files whose location is below the directory's location |
| AppointmentsRouter.ResolvePlain | api/appointments_router.py:154-157 | a relative path of plain names lies those entries below the working directory |
| AppointmentsRouter.AbsolutePlain | api/appointments_router.py:156-157 | an absolute path of plain names is the location those names make, whatever the working directory |
| AppointmentsRouter.AudioDirShape | api/appointments_router.py:154 | the audio directory is `audio_records/{user_id}/{appointment_id}`, three entries below the working directory |
| AppointmentsRouter.UploadPath | api/appointments_router.py:156 | a non-absolute file name is joined under the appointment's directory with one separator |
| AppointmentsRouter.PlainFileInDir | api/appointments_router.py:156-157 | a plain file name is stored directly inside the appointment's directory |
| AppointmentsRouter.ResolveDotDot | api/appointments_router.py:156-157 | `..` after a directory takes that directory back |
| AppointmentsRouter.DotDotFileEscapesDir | api/appointments_router.py:156-157 | a file name `../name` is stored in the user's directory, outside the appointment's |
| AppointmentsRouter.AbsoluteFileIgnoresDir | api/appointments_router.py:156-157 | an absolute file name replaces the directory entirely: its location depends on the name alone, not on the directory or the working directory |
| AppointmentsRouter.RootFileEscapesDir | api/appointments_router.py:156-157 | the file name `/name` is stored at the root, outside the appointment's directory |
| AppointmentsRouter.AbsoluteSpellingInDir | api/appointments_router.py:156-157 | an absolute file name that spells out the directory's absolute path is stored inside the directory |
| AppointmentsRouter.TranscriptLines | api/appointments_router.py:166 | one `Speaker {speaker}: {text}` line per utterance, in order |
| AppointmentsRouter.Transcribed | api/appointments_router.py:160-168 | every transcription failure, including the provider's error status re-raised as 500, becomes 502 "Failed to transcribe audio: ..."; success yields the formatted transcript |
| AppointmentsRouter.TranscriptSplitsIntoLines | api/appointments_router.py:166 | for single-line utterances, splitting the transcript at newlines gives back exactly the utterance lines |
| AppointmentsRouter.Processed | api/appointments_router.py:175-185 | processing writes exactly transcript, summary, structured summary, audio path and time; every other field is kept |
| AppointmentsRouter.ApplyUpdate | api/appointments_router.py:88-97 | the given non-null fields overwrite; unset and null fields, the owner and the derived fields are kept |
| AppointmentsRouter.EmptyUpdateChangesNothing | api/appointments_router.py:88-91 | an update with no given non-null field changes nothing |
| AppointmentsRouter.ApplyUpdateIdempotent | api/appointments_router.py:94-97 | applying the same update twice equals applying it once |
| AppointmentsRouter.ApplyUpdateKeepsValid | schemas.py:122-125 | a validated update keeps the doctor name non-empty and the reason within 500 characters |
| AppointmentsRouter.AudioDownload | api/appointments_router.py:204-217 | an invalid id gives 400; an appointment that is missing, not the caller's, or without a non-empty recorded path gives 404 "Audio record not found for this appointment."; otherwise the recorded path is served exactly when its location is on disk, else 404 "Audio file not found on server." |
| AppointmentsRouter.ProcessedAudioDownloads | api/appointments_router.py:207-215 | after processing stores the file at its location and records its path, the download serves that path |
| AppointmentsRouter.DeleteRemovesRecording | api/appointments_router.py:124-128 | removing the appointment's directory removes a recording uploaded under a plain name |
| AppointmentsRouter.DeleteRemovesAbsoluteSpelling | api/appointments_router.py:124-128 | removing the appointment's directory also removes a recording uploaded under the directory's absolute spelling |
| AppointmentsRouter.DeleteKeepsEscapedRecording | api/appointments_router.py:124-128 | a recording uploaded as `../name` survives the removal of the appointment's directory |
| AppointmentsRouter.CreateAppointment | api/appointments_router.py:29-55 | 422 for an invalid body; otherwise one appointment owned by the caller with no derived fields is inserted and linked in the graph, and a graph failure is swallowed |
| AppointmentsRouter.GetUserAppointments | api/appointments_router.py:57-65 | when every appointment of the caller loads: exactly the caller's appointments, each once, latest appointment time first; when one does not: 500 |
| AppointmentsRouter.UpdateAppointment | api/appointments_router.py:67-101 | 422, then 400 for an invalid id, then 404 if not owned, then 400 for an empty update, each without a write; otherwise only that appointment becomes `ApplyUpdate` of it, which is returned when it loads and gives 500 after the write when it does not; the field constraints of all appointments are kept |
| AppointmentsRouter.DeleteAppointment | api/appointments_router.py:103-133 | 400 for an invalid id; only an owned appointment is removed, else 404; its audio directory is removed, and a removal failure does not fail the delete |
| AppointmentsRouter.ProcessAppointmentAudio | api/appointments_router.py:136-193 | 400, then 404, each without a write; the upload is stored at its path's location; a transcription failure gives 502 with no appointment write; otherwise the appointment becomes `Processed` with both summaries, and the response carries them when the SOAP text is present and the structured summary is an object, else 500 after the write |
| AppointmentsRouter.DownloadAppointmentAudio | api/appointments_router.py:195-217 | the handler returns `AudioDownload` of the current state |
| HospitalsRouter.Search | api/hospitals_router.py:38-65 | a timeout gives 504, another request failure 502 with its message, anything else 500; success gives the elements |
| HospitalsRouter.AddressParts | api/hospitals_router.py:114-120 | one part per truthy tag: the house number first, then the street, the city last; none empty |
| HospitalsRouter.ReplaceChar | api/hospitals_router.py:126 | `_` becomes a space, every other character is kept |
| HospitalsRouter.TitleFrom | api/hospitals_router.py:126 | a letter is upper-cased after a non-letter and lower-cased after a letter |
| HospitalsRouter.TitleCase | api/hospitals_router.py:126 | `.title()` on ASCII: a letter is upper-case exactly at the start of a word, lower-case elsewhere |
| HospitalsRouter.AmenityFormatting | api/hospitals_router.py:126 | the facility type has the amenity's length; at each position the character, with `_` read as a space, is lower-cased when the amenity has a letter just before it and upper-cased otherwise |
| HospitalsRouter.ShapePlace | api/hospitals_router.py:96-132 | an element is kept exactly when it has a real name or an operator and truthy coordinates, taken directly or from `center`; the facility is built from `FacilityName`, `FacilityType`, `Latitude`, `Longitude`, `Phone`, `FullAddress` and the map link of that name and those coordinates |
| HospitalsRouter.FirstPlaces | api/hospitals_router.py:95 | `raw_places[:20]`: a prefix of at most 20 elements |
| HospitalsRouter.ShapeAllAppend | api/hospitals_router.py:95-133 | shaping one more element appends its facility, if kept, to the end |
| HospitalsRouter.ShapeAllBound | api/hospitals_router.py:95-133 | no more facilities than elements |
| HospitalsRouter.ShapeAllMembers | api/hospitals_router.py:95-133 | a facility is returned exactly when it is the shaping of some input element |
| HospitalsRouter.NearbySearchSources | api/hospitals_router.py:78-95 | every facility returned is the shaping of one of the first 20 elements of the answer used: the 0.02 answer when it has elements, otherwise the 0.05 one |
| HospitalsRouter.NearbySearchBound | api/hospitals_router.py:95-133 | at most 20 facilities are returned |
| HospitalsRouter.WiderSearchOnlyWhenEmpty | api/hospitals_router.py:78-83 | the 0.05 search is consulted only when the 0.02 search returns no elements |
| HospitalsRouter.Latitude | api/hospitals_router.py:103 | a truthy `lat` is used; otherwise the centre's, if any; a truthy result comes from one of the two |
| HospitalsRouter.Longitude | api/hospitals_router.py:104 | a truthy `lon` is used; otherwise the centre's, if any; a truthy result comes from one of the two |
| HospitalsRouter.FacilityName | api/hospitals_router.py:97 | the name tag, else the operator tag, else "Unnamed Facility" |
| HospitalsRouter.FullAddress | api/hospitals_router.py:114-122 | no address exactly when there is no house number, street or city; otherwise `addr:full` when truthy, else the parts joined by ", " |
| HospitalsRouter.Phone | api/hospitals_router.py:129 | a truthy `phone` tag, else the `contact:phone` tag as it is; a phone comes from one of the two |
| HospitalsRouter.NearbySearch | api/hospitals_router.py:78-141 | a failed first search is its error; a non-empty first answer gives the shaping of its first 20 elements; an empty one falls back to the wider search: its error, or the shaping of its first 20 elements when it has any, or the empty-area message when it has none; the message counts the facilities returned |
| HospitalsRouter.AssembleAddress | api/hospitals_router.py:113-122 | the appending construction yields `FullAddress` |
| HospitalsRouter.FindNearbyHospitals | api/hospitals_router.py:67-141 | the loop with its `continue`s returns `NearbySearch`: the search errors, the empty-area message, or the shaped first 20 elements with the count message |
| AuthRouter.NewUserDoc | api/auth_router.py:31-36 | the stored record has the public fields and no plain password; its digest verifies the sign-up password and, when that password fits in 72 UTF-8 bytes, no other password that fits |
| AuthRouter.Signup | api/auth_router.py:17-43 | 409 with no write when any user has that email or that username; otherwise one record is inserted, the graph node is merged with its failure swallowed, the public fields are returned, and unique emails and usernames stay unique |
| AuthRouter.Login | api/auth_router.py:45-64 | a token is issued only for a stored user matched by email or username whose digest verifies the password; the subject is the stored username and the type is "bearer"; otherwise 401 |
| AuthRouter.LoginReachesOwner | api/auth_router.py:53 | with unique accounts, logging in by a user's email reaches that user alone, unless the email is someone's username |
| UserRouter.PublicProfile | api/user_router.py:55 | the response holds the stored user's public fields and profile, not the digest |
| UserRouter.GetUserProfile | api/user_router.py:17-24 | the response is the caller's public profile |
| UserRouter.ApplyPatch | api/user_router.py:42-45 | every given field is overwritten, including an explicit null; unset fields are kept |
| UserRouter.EmptyPatchChangesNothing | api/user_router.py:34-40 | a patch with nothing set changes nothing |
| UserRouter.ApplyPatchIdempotent | api/user_router.py:42-45 | applying the same patch twice equals applying it once |
| UserRouter.ApplyPatchKeepsValid | schemas.py:50-54 | a validated patch keeps the age within 0..120 and the weight and height non-negative |
| UserRouter.PatchProps | api/user_router.py:34-48 | the properties sent to the graph name only profile fields, and are empty exactly when nothing was set |
| UserRouter.PatchKeepsMirror | neo4j_driver.py:45-50 | if the user's graph node mirrored the stored profile, it mirrors the patched profile after `SET u += $props` |
| UserRouter.PatchedUsers | api/user_router.py:42-45 | `$set` changes only the caller's record, and only its profile fields |
| UserRouter.UpdateUserProfile | api/user_router.py:26-57 | 422, then 400 "No update data provided.", each without a write; otherwise the record and the graph node are patched, a graph failure is swallowed and the re-read record is returned (500 if it is gone); the field constraints of all users are kept |
| GraphMirror.SetAdd | neo4j_driver.py:47 | `SET n += $props`: given keys are set, null ones removed, others kept |
| GraphMirror.MergeUser | neo4j_driver.py:33-38 | a user node exists afterwards; an existing node is untouched; a new one gets username, full name and creation time |
| GraphMirror.MergeUserSetProps | neo4j_driver.py:45-50 | the node is created if missing and gets `SetAdd` of the properties; other nodes and links are unchanged |
| GraphMirror.MergeAppointment | neo4j_driver.py:64-73 | without a user with that email nothing happens; otherwise the appointment node exists, with its on-create properties only when new, and the user is linked to it |
| GraphMirror.AppointmentProps | neo4j_driver.py:67-71 | the on-create properties: doctor and specialization exactly when given, the appointment time and the creation time, and no other property |
| GraphMirror.MergeUserRepeat | neo4j_driver.py:33-36 | repeating the user merge changes nothing: no overwrite of username, full name or creation time |
| GraphMirror.MergeAppointmentRepeat | neo4j_driver.py:64-73 | repeating the appointment merge changes nothing: one node per id, one link per pair, no overwrite |
| GraphMirror.MergeUserSetPropsRepeat | neo4j_driver.py:45-48 | setting the same properties twice equals setting them once |
| GraphMirror.RunKeepsWellLinked | neo4j_driver.py:64-73 | every statement keeps links between existing nodes, and every appointment linked to some user |
| GraphMirror.Neo4jDriver.constructor | neo4j_driver.py:8-15 | a failed connection leaves the driver absent |
| GraphMirror.Neo4jDriver.ExecuteQuery | neo4j_driver.py:22-28 | without a driver nothing is run and nothing changes; a failing run raises and changes nothing; otherwise the statement's semantics is applied |
| GraphMirror.CreateUserNode | neo4j_driver.py:32-39 | runs the user merge and reports whether it raised |
| GraphMirror.UpdateUserNodeProperties | neo4j_driver.py:41-51 | empty properties: no statement and no change; otherwise runs the property merge |
| GraphMirror.CreateAppointmentNodeAndLinkToUser | neo4j_driver.py:54-82 | runs the appointment merge and link |
| Schemas.ParseObjectId | schemas.py:20 | an id parses exactly when it is 24 hex digits; the parsed id is its lower-case form |
| Schemas.ParsePrintedId | schemas.py:19-22 | a printed id parses back to itself |
| Schemas.ValidatePyObjectId | schemas.py:19-22 | the validator accepts exactly the valid ids and returns them unchanged |
| Schemas.NewAppointment | schemas.py:128-133 | a new appointment has the caller as owner, the given fields, and no derived fields; a valid body gives a valid appointment |
| Credentials.EncodeChar | auth.py:18 | one to four bytes per character, the lead byte announcing the length, continuation bytes after it |
| Credentials.DecodeEncodeChar | auth.py:18 | a character's bytes decode back to its code point |
| Credentials.Utf8 | auth.py:18-21 | `encode('utf-8')`: at least one byte per character, every one a byte |
| Credentials.Utf8Injective | auth.py:18-21 | different passwords have different encodings |
| Credentials.Utf8Append | auth.py:18 | the encoding of a concatenation is the concatenation of the encodings |
| Credentials.BcryptKey | auth.py:18-21 | the bytes bcrypt reads: a prefix of the encoding of at most 72 bytes, the whole encoding when it fits |
| Credentials.HashPassword | auth.py:17-18 | a digest carries the fresh salt and at most 72 key bytes |
| Credentials.HashThenVerify | auth.py:17-21 | a digest verifies the password it was made from; among passwords of at most 72 UTF-8 bytes, no other one |
| Credentials.LongPasswordsCollide | auth.py:17-21 | two different passwords sharing their first 72 bytes verify against each other's digest |

## Left out

- Floating-point weight, height and coordinates are modelled as integers, and search radii as reals. Numbers in the structured summary are integers too (`JNumber`), so a fraction that `json.loads` reads, such as 23.5, cannot be represented. A truthy float is a non-zero integer. Float-to-text rendering in the prompt and the map link is not modelled.
- The bounding-box query text, the Overpass HTTP call and `quote_plus` are left out: the map link is an uninterpreted function of the name and the coordinates.
- `.title()` is modelled on ASCII letters only. Its Unicode case mapping is not modelled.
- Dates are integer clock readings. `isoformat` for the graph's appointment time is not modelled: the graph stores the reading itself.
- `created_at` defaults that the read schemas fill in for records missing them are not modelled.
- Language model, speech-to-text and search calls are oracles. Their configuration (temperature, tools, prompts) is not modelled, except the system prompt itself.
- `asyncio.gather` of the two summaries is modelled as two independent calls whose results are combined.
- The uploaded bytes, `makedirs` and file writes are modelled as adding the path to a set of files.
- ProcessAppointmentAudio: a file name that cannot be written (an `open` failure, such as an empty name or one through a missing directory) is not modelled; the upload is always stored at its location.
- DeleteAppointment: a directory removal that fails part-way is modelled as removing nothing, because the source does not say which files remain.
- Email-format validation of sign-up (`EmailStr`) is not modelled.
- JWT encoding and decoding and `get_current_user` are not modelled. The caller is given as an authenticated `CurrentUser`, and a token is an opaque value holding its subject and expiry.
- bcrypt's hash function is not modelled: a digest records its salt and the key bytes it was computed over, which is what `checkpw` compares. The key is the password's UTF-8 bytes cut to 72, as the bcrypt library versions before 5.0 do. Version 5.0 raises for a longer password instead; that error is not modelled.
- Credentials.HashThenVerify: promises that no other password verifies only for passwords of at most 72 UTF-8 bytes, because bcrypt ignores every byte after the 72nd (`Credentials.LongPasswordsCollide`). A string holding a surrogate code point cannot be represented, since a Dafny `char` is a Unicode scalar value, so the `UnicodeEncodeError` Python raises for one is not modelled.
- Resolve: symbolic links are not followed, every directory on the way is taken to exist, and the working directory is fixed for the life of the store.
- The body of a 422 validation response is not modelled, only its status.
- The graph's `createdAt` uses the handler's clock reading instead of the database's `timestamp()`.
- The `email` key in `SET u += $props` is not treated specially. The only caller passes profile fields, which never include it.
- The hospital debug endpoint, the application wiring (database.py, main.py, config.py) and the Streamlit frontend are not part of this model.
- Logging and `print` output are not modelled.
- Concurrent requests, such as two chat turns racing on one session, are not modelled. Each handler runs as one atomic step.
