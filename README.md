# Evolution API instance manager — a verified model

This project models the core of `cli.py`, the command-line client that manages
WhatsApp instances on an Evolution API gateway. The client keeps a registry of
instances in memory (`self.instances`, a dictionary from instance name to
record) and writes it to disk after selected changes. It also keeps a photo
store. It changes both by talking to the gateway: it creates, connects and
deletes instances, syncs with the gateway's instance list, polls the
connection state, gives a connected instance a generated persona (profile
picture, name and bio), and joins groups from invite codes.

The model is written in the shape the source has:

- `Cli.EvolutionCli` is a class with the fields the client changes in place.
  `instances` is the registry and `persisted` (ghost) is the copy last saved.
  `photos` is the photo store. `gateway` and `clock` stand for the world
  outside. Every loop of the source (sync, polling, retries, joins) is a
  `while` loop with invariants. Each method is proved against spec functions.
- The gateway is an oracle. `EvolutionApi.Gateway` answers requests from a
  script of optional JSON replies, so any gateway behaviour is some script.
  `None` stands for a transport or HTTP error. The gateway also logs every
  request sent, so contracts can state exactly which calls a method makes.
  `EvolutionApi.Clock` is abstract time, and only sleeps move it.
- The pure parts are datatypes, functions and lemmas. These cover reading
  replies, the sync's spec function with its closed form, invite-code
  extraction, fence stripping and the base-URL normalisers. Python's
  `strip`, `split`, `join` and `replace` are written out in `Text` with
  their own lemmas.

Files: `values.dfy` (Option, JSON values, truthiness), `text.dfy` (string
builtins), `fences.dfy`, `config.dfy`, `invite.dfy`, `gateway.dfy`
(module `EvolutionApi`), `registry.dfy`, `cli.dfy`.

Behaviour of the code worth noting; the model follows it:

- The persona stored after set-up keeps the generator's full bio. Only the
  bio sent to the profile is cut to 139 characters.
- The photo picker never consults the set of photos in use. It chooses
  among all model photos. `UsedPhotoIds` is modelled, but nothing calls it.
- The sync saves only when it inserted a record. A status-only change stays
  in memory.
- The persona set-up runs all three profile updates even after one fails,
  because `success &= f()` evaluates `f()` every time.
- The persona set-up asks the gateway for the instance list (the business
  check) before its "already has a persona" guard.
- The IP check replaces the remembered IP wherever it occurs in the URL as
  a substring. A remembered `10.0.0.1` also matches the start of
  `10.0.0.12`, so that address becomes `10.0.0.52` when the new IP is
  `10.0.0.5`.

## Model

| member | source | states |
|---|---|---|
| Text.Strip | cli.py:691 | `str.strip()`: the result is no longer than the input and neither starts nor ends with whitespace |
| Text.StripSlice | cli.py:691 | what `strip` keeps is a contiguous slice of the input, and every character cut on either side is whitespace |
| Text.StripIdempotent | cli.py:691 | stripping twice is stripping once |
| Text.TrimEnd | cli.py:328 | `rstrip`: the result is a prefix, it does not end in a dropped character, and everything cut was a dropped character |
| Text.Split | cli.py:695-697 | `str.split(sep)` on a non-empty separator always gives at least one piece |
| Text.JoinSplit | cli.py:695-697 | joining the pieces of a split with the separator gives back the string |
| Text.SplitPiecesFree | cli.py:695-697 | no piece of a split contains the separator |
| Text.Replace | cli.py:162 | `str.replace`: a string without the target comes back unchanged |
| Text.ReplaceIsJoinOfSplit | cli.py:162 | replacing equals splitting on the target and joining with the replacement |
| Text.ReplaceSingle | cli.py:162 | with exactly one occurrence of the target, only that occurrence changes |
| Fences.Fenced | cli.py:694-697 | the text kept between an opening marker and the next fence never contains a fence and is trimmed |
| Fences.StripFences | cli.py:691-697 | a reply that does not open with a fence is only trimmed; a fenced reply loses every fence; the result is always trimmed |
| Fences.JsonFenceRoundTrip | cli.py:691-697 | wrapping a backtick-free JSON body in a json code fence and stripping it gives back the trimmed body |
| Fences.BareFenceRoundTrip | cli.py:696-697 | wrapping a backtick-free body that does not begin with `json` in bare code fences and stripping them gives back the trimmed body |
| Config.WithScheme | cli.py:323-325 | a URL starting with `http://` or `https://` is kept as it is; any other gets `http://` in front |
| Config.NormaliseBaseUrl | cli.py:315-328 | the stored base URL is the answer (or the suggestion when empty) with the scheme added when missing, cut only of trailing slashes; it starts with `http:` or `https:` and never ends in a slash |
| Config.NormaliseStable | cli.py:323-328 | a URL with a scheme and no trailing slash is stored exactly as entered |
| Config.NormaliseSchemeless | cli.py:323-328 | an answer without a scheme or trailing slash is stored as `http://` followed by the answer |
| Config.NormaliseEmpty | cli.py:309-318 | an empty answer stores the suggested URL `http://<local ip>:8080` |
| Config.FirstRunConfig | cli.py:309-331 | the first-run configuration records the local IP, the suggestion on an empty answer, a clean schemed URL as entered and a clean schemeless one behind `http://` |
| Config.FirstRunNeedsNoIpCheck | cli.py:84-90 | the IP check right after first-run set-up writes nothing (unless the IP is empty) |
| Config.CheckIpChange | cli.py:151-184 | the check saves exactly when no IP was remembered (or an empty one), or the IP moved and either the operator agreed or the old IP is not in the URL; when the IP moved, occurs in the URL and the operator agrees, every occurrence is replaced by the new IP and the new IP recorded; a save always records the current IP; without a save nothing changes; the URL changes only in that agreed case |
| Config.IpCheckSettles | cli.py:151-184 | after a check that saved, the next start-up on the same machine finds nothing to do |
| Config.SuggestedUrlFollowsIp | cli.py:155-175 | a suggested URL built on a dotted-decimal remembered IP follows the machine to any new IP when the operator accepts |
| Invite.CodeAt | cli.py:958-963 | the captured group is 22 ASCII letters and digits |
| Invite.FindLink | cli.py:958-960 | the regular-expression search finds the leftmost `chat.whatsapp.com/` followed by a code, or reports that none exists |
| Invite.ExtractInviteCode | cli.py:954-969 | a returned code is always 22 ASCII letters and digits |
| Invite.ExtractInviteCodeCases | cli.py:954-969 | the code after the leftmost link when there is one; otherwise the trimmed input if it is a code, else nothing |
| Invite.FindLinkFirst | cli.py:958-960 | the search stops at the leftmost link |
| Invite.LinkRoundTrip | cli.py:958-963 | `https://chat.whatsapp.com/<code>` yields `<code>` |
| Invite.BareCode | cli.py:965-967 | a bare code pasted on its own yields itself |
| Invite.Codes | cli.py:1022-1036 | the collected list is no longer than the input and holds only codes |
| Invite.CodesKeeps | cli.py:1022-1036 | a line before any end word whose trimmed text yields a code has that code collected |
| Invite.CodesStop | cli.py:1026-1027 | collection stops at the first end word: the codes of all lines equal those of the lines before it |
| Invite.CollectCodes | cli.py:1022-1036 | the prompt loop collects exactly `Codes(lines)`: trimmed lines up to the end word, empty and invalid lines skipped |
| EvolutionApi.Gateway.constructor | cli.py:413-441 | a fresh gateway has the given reply script and has been sent nothing |
| EvolutionApi.Gateway.Send | cli.py:413-441 | a request is logged and answered by the next reply of the script (an error once it runs out) |
| EvolutionApi.Clock.Sleep | cli.py:662 | sleeping advances time by exactly the given seconds |
| EvolutionApi.Succeeded | cli.py:633 | `if result:` on a reply: the call returned a value and it is truthy |
| Values.Truthy | cli.py:633 | Python truthiness of a JSON value: null, false, zero and empty strings, lists and objects are false |
| EvolutionApi.StateOf | cli.py:636-643 | the reported state: the flat `state` field, else `state` inside an `instance` object, else none |
| EvolutionApi.IsOpen | cli.py:645-647 | connected exactly when the reported state is "open" |
| EvolutionApi.ReplyShapesAgree | cli.py:636-645 | the flat `state` shape and the nested `instance.state` shape report the same state, connected exactly for "open" |
| EvolutionApi.NestedStateDecides | cli.py:641-645 | without a flat `state`, the `state` inside the `instance` object decides, whatever other fields either object holds |
| EvolutionApi.FlatStateWins | cli.py:638-642 | when the flat `state` field is present it decides, whatever `instance` says |
| EvolutionApi.ErrorIsClosed | cli.py:633-647 | an absent, failed or falsy reply never reads as connected |
| EvolutionApi.NoStateIsClosed | cli.py:638-647 | a reply with neither field never reads as connected |
| EvolutionApi.HasQrCode | cli.py:537-545 | a connect reply carries a QR code when it is an object with a `base64` field |
| EvolutionApi.CredentialOf | cli.py:519 | the stored credential is the reply's `hash`, or "" when absent |
| EvolutionApi.ScanBusiness | cli.py:978-981 | false when every entry is an object under another name; a result other than false is the `isBusiness` field of a named entry |
| EvolutionApi.ScanBusinessFirst | cli.py:978-981 | when the entries before it are objects under other names, the first named entry decides: its `isBusiness` field, or false without one |
| EvolutionApi.BusinessFlag | cli.py:971-986 | the business flag is false unless the reply is a list holding the named instance with that field |
| EvolutionApi.BusinessFlagFirst | cli.py:971-986 | a business instance is detected: a list reply naming the instance yields the first named entry's `isBusiness` field |
| EvolutionApi.FirstHitFrom | cli.py:653-664 | the first reply within the bound that meets the test, with none before it, or none at all |
| EvolutionApi.Attempts | cli.py:715-731 | a retried update sends one to three requests, up to and including the first success |
| EvolutionApi.RetrySucceeds | cli.py:715-731 | a retried update succeeds exactly when one of its first three replies succeeds, and then the last request sent is the successful one |
| EvolutionApi.TruncateBio | cli.py:737-740 | the bio sent is a prefix of at most 139 characters, the whole bio when it fits, and exactly 139 characters otherwise |
| EvolutionApi.PollCount | cli.py:653-662 | polling every 3 seconds fits n probes where 3(n-1) < timeout <= 3n, and none for a timeout of zero or less |
| EvolutionApi.Accepted | cli.py:1065 | an invite reply counts as joined when it is an object whose `accepted` field is truthy |
| EvolutionApi.CountAccepted | cli.py:1065-1067 | the successes never exceed the number of requests |
| EvolutionApi.CountAcceptedAll | cli.py:1054-1079 | every join counts as a success exactly when every reply accepts |
| EvolutionApi.JoinRequests | cli.py:1058-1063 | one invite request per code, in order |
| Registry.Fresh | cli.py:238-246 | a synced record gets the name, an empty apikey, no persona or photo, `synced_from_api` set and the reported status |
| Registry.SyncStep | cli.py:231-264 | one entry of the list: skipped without a name; an unknown name is inserted fresh and counted; a known name takes the reported status (its lemmas SyncStepInserts and SyncStepUpdates state both cases) |
| Registry.Reconcile | cli.py:221-268 | after syncing, the registry holds exactly the local names plus the reported ones |
| Registry.NamedMembers | cli.py:231-235 | a name is reported exactly when some entry carries it non-empty |
| Registry.LastOpenIsLast | cli.py:256-264 | the status a name ends with is the one of its last entry in the list |
| Registry.ReconcileIsMerged | cli.py:221-268 | the sync loop equals the closed form: local records kept, reported names take their last status, new names inserted fresh, and the count is the number of new names |
| Registry.SyncKeepsIdentity | cli.py:256-264 | on a known record only `connected` can change: apikey, persona and photo are never overwritten, and unmentioned records are untouched |
| Registry.SyncFollowsRemote | cli.py:236-264 | each reported name ends connected exactly when its last entry says "open"; a new name is inserted as a fresh record with that status |
| Registry.SyncSaveRule | cli.py:266-267 | the sync counts insertions, and so saves, exactly when the list names an unknown instance |
| Registry.SyncIdempotent | cli.py:221-268 | a second sync with the same list inserts nothing and changes nothing |
| Registry.SyncWellFormed | cli.py:238-264 | sync keeps every record under its own name and never gives a persona without a photo |
| Registry.UsedPhotoIds | cli.py:461-468 | a photo id is in use exactly when a connected record holds it and it is non-empty |
| Registry.PhotoIds | cli.py:461-468 | helper: the photo ids held by any record, connected or not; only `SyncUsesKnownPhotos` uses it |
| Registry.SyncUsesKnownPhotos | cli.py:221-268 | sync never puts into use a photo that no record held |
| Registry.DeleteReleasesPhoto | cli.py:941-950 | deleting a record takes its photo out of use unless another connected record holds it, and adds nothing |
| Cli.EvolutionCli.constructor | cli.py:96-97 | the loaded registry is both the one in memory and the one on disk |
| Cli.EvolutionCli.SyncInstances | cli.py:221-268 | the registry becomes `Reconcile` of the old one, and is saved exactly when something was inserted |
| Cli.EvolutionCli.CheckConnectionStatus | cli.py:628-647 | one state request; connected exactly when the reply reads as open |
| Cli.EvolutionCli.WaitForConnection | cli.py:649-666 | probes every 3 seconds within the timeout; at the first open reply it marks the record connected, saves and returns true; otherwise it returns false with the registry untouched, having sent one probe per poll slot |
| Cli.EvolutionCli.RetryRequest | cli.py:715-731 | at most three requests, stopping at the first success, with a sleep between attempts and none after the last |
| Cli.EvolutionCli.UpdateProfileName | cli.py:708-731 | the name is retried up to three times, 3 seconds apart |
| Cli.EvolutionCli.UpdateProfileStatus | cli.py:733-758 | the bio is cut to 139 characters and retried up to three times, 2 seconds apart |
| Cli.EvolutionCli.UpdateProfilePicture | cli.py:760-784 | a single picture request, successful exactly when the reply is truthy |
| Cli.EvolutionCli.RunProfileUpdates | cli.py:818-831 | all three updates are sent whatever the others returned, 5 seconds apart; the result is true exactly when all three succeeded |
| Cli.EvolutionCli.SetupPersona | cli.py:786-852 | an instance with a persona is left alone (true); with no photo or no persona it fails without touching the registry; otherwise the photo is copied and the record gets persona, photo and business flag, and is saved, exactly when all three updates succeeded; the stored bio is untruncated |
| Cli.EvolutionCli.ApplyPersona | cli.py:818-838 | the three profile updates are sent; only when all succeeded does the record take the persona, the photo id and the business flag, and the registry is saved; otherwise nothing is written |
| Cli.EvolutionCli.CreateInstance | cli.py:492-529 | on an object reply the record is added with the returned credential, not connected, and saved; otherwise nothing changes |
| Cli.EvolutionCli.ConnectInstance | cli.py:531-554 | a QR code is obtained exactly when the reply is an object with `base64` |
| Cli.EvolutionCli.CreateAndConnect | cli.py:854-881 | an empty or known name is refused without any request; a failed creation changes nothing; no existing record ever changes; past creation the registry gained exactly the new name with its credential and is saved; without a QR code or a scan the record stays unconnected, a scan leaves it connected; a completed persona stores the generated persona and photo id; the photo store gains only the new photo, copied from an available model photo, and only when set-up reached it |
| Cli.EvolutionCli.ConnectAndSetUp | cli.py:873-881 | after creation: without a QR code or a scan the record stays unconnected; a scan marks it connected; a completed persona stores the generated persona and photo id; only the new record changes, and the registry stays saved |
| Cli.EvolutionCli.DeleteInstance | cli.py:911-952 | a confirmed known instance is removed, with its stored photo, and the registry saved; the gateway's answer is not consulted; otherwise nothing changes |
| Cli.EvolutionCli.ProbeStatus | cli.py:1259-1272 | a known instance's `connected` flag is set to the probed state, saved only when it changed; an unknown name sends nothing |
| Cli.EvolutionCli.JoinGroups | cli.py:1054-1079 | one invite request per code; successes are the accepted replies, successes plus failures equal the codes, and 10 seconds pass between requests but not after the last |

## Left out

- Console input and output, colours, headers and the menu loop are not modelled. Operator answers enter as parameters: the typed instance name, the delete confirmation (`confirmed`), the URL-update consent (`accept`) and the invite lines.
- The HTTP transport (`requests`, URL building, headers, status codes) is abstracted into `Gateway.Send` and its reply script. Raised exceptions are not modelled: an exception is read as an error reply where the source catches it, as in the business check and the join loop.
- A truthy reply that is not a JSON object is read as a failed call. This covers a list, string, number or boolean reply to create, connect, connection state or invite. The source would test list membership or substrings there, or raise.
- Values.Truthy: JSON numbers are integers only (`Num`). Floats are not representable, so Python's truthiness of `0.0` (falsy) and `0.5` (truthy) is not modelled.
- Cli.EvolutionCli.SyncInstances: an entry's `name` is a string or absent. The source inserts a truthy non-string name (a number, a list) under that key (cli.py:231-245). A list entry that is not an object makes `.get` raise mid-loop; the caller catches it (cli.py:216), and the changes already made in memory stay unsaved. Neither is modelled.
- The persona generator's client, the prompt file and the JSON parsing of its reply are not modelled. The generated persona arrives as `generated: Option<Persona>`, and `None` means generation failed.
- QR code rendering and image decoding are foreign libraries and are not modelled.
- Files are modelled abstractly. Saving the registry is the assignment to `persisted`. The photo store is the map `photos`, and copying and unlinking are updates to it. Globbing the model photo folder is the parameter `available`. Renaming in `organize_model_photos` is not modelled.
- Local IP detection, `random.choice` and `uuid` are inputs. The IP is a parameter, the photo choice is a nondeterministic pick from `available`, and the photo id is a parameter.
- Time passes only in sleeps. Request latency is not modelled, so `created_at` is the clock reading and the polling loop's elapsed time counts sleeps only.
- Registry.UsedPhotoIds: returns a set, so the order and repeats of the source's list are not kept.
- Cli.EvolutionCli.WaitForConnection: requires the instance to be in the registry. The source would raise on a successful probe for an unknown name, and its only caller has just inserted it.
- Cli.EvolutionCli.SetupPersona: requires the instance to be in the registry, as its callers check. The profile picture is sent by photo id, and reading and encoding the image file is not modelled.
- The automatic join flow (`join_groups_auto`, cli.py:1107-1194) runs the same loop as `JoinGroups` over codes from the scraper. The scraper (`scraper.py`) is a network crawler and is not part of this model.
- Configuration fields other than the base URL and the last detected IP are not modelled. These are the API keys, the webhook, the generator model and the instance settings.
- `list_instances`, the group listing after joins and `test_cli.py` only display or read data and are not modelled.
