# Tortoise-BOT membership and REST-client logic, modelled in Dafny

Tortoise-BOT is a Discord bot for the Tortoise community. A remote REST API stores its member records,
rules and warnings. This project models the bot's own decision and bookkeeping logic and proves
properties about it:

- **Rules** (`rules.dfy`): rule lookup by number or by lower-cased alias, the reply of the `rule`
  command, and the `rules` listing.
- **TortoiseServerCog** (`tortoise_server.dfy`) covers these parts:
  - the three-way classification of a joining member against their remote record;
  - registration of a new member and the two rejoin paths;
  - role restoration for a returning verified member, done while the `_database_role_update_lock` flag holds off the
    "roles changed" listener;
  - that listener itself;
  - the emoji-to-role lookup and the two reaction handlers.

  The cog is a class. Its fields are the remote member records (a map), the member/role grants of the guild, the lock
  and a log of actions. The chat platform's effects (role changes, channel posts, direct messages) and the API writes
  are entries appended to that log.
- **ApiClient** (`api_client.dfy`) covers these parts:
  - status classification (`raise_for_status`) and `ResponseCodeError` with its message;
  - the 204 path of `delete`, the endpoint URLs and `is_verified` / `does_member_exist`;
  - the member-record payloads (join, rejoin, leave, roles);
  - reading, counting and appending member warnings.

  Each operation takes as a parameter the HTTP response it would receive (a status plus a JSON or text body). It
  returns what the client would return, or the request it would send.
- **Extensions** (`extensions.dfy`): the start-up loop that picks which cog extensions to load. It applies the banned
  set and the optional allow set, keeps input order, and a failure to load one extension does not stop the others.
- Support modules: `Wrappers` (Option/Result), `Text` (decimal numerals as Python's `str(int)` writes them, `str.join`,
  ASCII lower-casing), `Json` (decoded JSON values with Python truthiness, key lookup and `str()`).

Where the code and its own comments could be read two ways, the model follows the code:

- Any status of 400 or more is an error (bot/api_client.py:49). The docstrings at bot/api_client.py:19 and :48 speak
  of a "non-OK" response, but a 3xx status passes without raising.
- A rule's aliases are a list (the return format in the `get_all_rules` docstring, bot/api_client.py:161-170),
  looked up by membership.
- The comment at bot/cogs/tortoise_server.py:213-214 says a stored role id the guild no longer has is ignored. The
  loop below it does not do this (see Findings). The model proves the as-written behaviour and uses the behaviour
  the comment intends in the handlers.

Inputs the model takes as parameters:

- The clock (`now`, an ISO timestamp string).
- `json.loads` / `json.dumps` (arbitrary functions).
- Which role ids Discord rejects with an HTTP error (`rejects`).
- Which extension modules fail to import (`broken`).
- The list of cog names found on disk.

## Model

| member | source | states |
|---|---|---|
| `Rules.RuleByValue` | bot/cogs/tortoise_server.py:98-101 | none exactly when no rule has the number; a found rule has that number and is in the list |
| `Rules.RuleByValueIsFirst` | bot/cogs/tortoise_server.py:98-101 | the rule returned is the first rule with the number |
| `Rules.RuleWithAlias` | bot/cogs/tortoise_server.py:104-106 | none exactly when no rule's alias list contains the query; a found rule lists it |
| `Rules.RuleByAlias` | bot/cogs/tortoise_server.py:103-106 | the query is lower-cased, the stored aliases are not; none exactly when no alias list contains the lower-cased query |
| `Rules.RuleWithAliasIsFirst` | bot/cogs/tortoise_server.py:103-106 | the rule returned is the first one listing the (lower-cased) query |
| `Rules.AliasLookupIgnoresCase` | bot/cogs/tortoise_server.py:105 | looking up an alias or its lower-cased form finds the same rule |
| `Rules.UpperCaseAliasesUnreachable` | bot/cogs/tortoise_server.py:105 | a rule whose every alias has an upper-case letter is never found by alias |
| `Rules.FindRule` | bot/cogs/tortoise_server.py:88-91 | an int argument is looked up by number, a string argument by alias |
| `Rules.RuleReply` | bot/cogs/tortoise_server.py:88-96 | the reply is "No such rule." exactly when the lookup finds nothing, otherwise the found rule's statement titled "Rule <argument>" |
| `Rules.RulesListing` | bot/cogs/tortoise_server.py:114-122 | one entry per rule, in list order, each the rule's number, aliases and statement; the text is the listing of the rules |
| `Rules.ListingOfOne` | bot/cogs/tortoise_server.py:122 | the listing of a single rule is its entry with no separator |
| `Rules.ListingSnoc` | bot/cogs/tortoise_server.py:114-122 | appending a rule keeps the earlier listing in front and adds a blank line and the new rule's entry at the end |
| `Rules.EntryDeterminesNumber` | bot/cogs/tortoise_server.py:116-119 | two listing entries are equal only for rules with the same number |
| `Rules.ListingLength` | bot/cogs/tortoise_server.py:114-122 | the listing of the rules is as long as their entries together plus two characters for each blank line between neighbours |
| `TortoiseServerCog.ClassifyJoin` | bot/cogs/tortoise_server.py:131-139 | a lookup error goes to registration; a record with no leave date that is verified leads to no action; every other record goes to the rejoin path with its verified flag |
| `TortoiseServerCog.RejoinCases` | bot/cogs/tortoise_server.py:136-139 | a verified member is treated as returning exactly when the record has a leave date; an unverified one always is |
| `TortoiseServerCog.TortoiseServer.MetaLookup` | bot/cogs/tortoise_server.py:132 | the record is found exactly when the API holds one for the id |
| `TortoiseServerCog.TortoiseServer.OnMemberJoin` | bot/cogs/tortoise_server.py:129-139 | per path, the new records, actions, role grants and lock: a member without a record is registered; a current verified member gets no write, no role change, no message; a returning member is marked rejoined and follows the verified path (lock clear at the end) or the unverified one (lock untouched); the API writes are exactly the insert, nothing, or the rejoin mark |
| `TortoiseServerCog.RegisterWrites` | bot/cogs/tortoise_server.py:141-153 | registration writes only the insert of the new record, whether or not the role add is rejected |
| `TortoiseServerCog.UnverifiedRejoinWrites` | bot/cogs/tortoise_server.py:179-191 | an unverified return writes only the rejoin mark |
| `TortoiseServerCog.VerifiedRejoinWrites` | bot/cogs/tortoise_server.py:168-178 | a verified return writes only the rejoin mark: removing and restoring roles writes nothing to the API |
| `TortoiseServerCog.TortoiseServer.NewMemberRegister` | bot/cogs/tortoise_server.py:141-153 | exactly one insert, then the unverified role, then ping, log entry and welcome DM; a rejected role add ends the handler |
| `TortoiseServerCog.TortoiseServer.NewMemberReJoined` | bot/cogs/tortoise_server.py:167-191 | verified: restore the stored roles, mark rejoined, log and welcome back; unverified: mark rejoined, give the unverified role, log, ping and remind |
| `TortoiseServerCog.Rejoined` | bot/api_client.py:126-128 | a rejoined record is present with no leave date and keeps its verified flag and roles |
| `TortoiseServerCog.RolesToStore` | bot/cogs/tortoise_server.py:199-202 | nothing is stored exactly when the two role lists hold the same ids in the same order (the platform's roles compare by id) or the lock is set; otherwise the after-roles' ids, in order |
| `TortoiseServerCog.TortoiseServer.OnMemberUpdate` | bot/cogs/tortoise_server.py:195-204 | no write when the lists hold the same role ids or the lock is set; otherwise one roles write for the member |
| `TortoiseServerCog.RestoreList` | bot/cogs/tortoise_server.py:215-216 | the attempted roles are the guild lookup of each stored id, in order, then the verified role last |
| `TortoiseServerCog.TortoiseServer.AddRolesLocked` | bot/cogs/tortoise_server.py:218-222 | runs only with the lock set; logs each attempt in order and grants exactly the roles not rejected |
| `TortoiseServerCog.TortoiseServer.AddVerifiedRolesToMember` | bot/cogs/tortoise_server.py:206-224 | removes the unverified role (ignoring a rejection), adds the restore list while the lock is set, and leaves the lock clear |
| `TortoiseServerCog.RestorationAttempts` | bot/cogs/tortoise_server.py:215-222 | every stored role the guild still has is attempted, in order, then the verified role; a rejected add does not stop later ones |
| `TortoiseServerCog.RestoredRoleSet` | bot/cogs/tortoise_server.py:212-224 | the granted roles are the stored roles the guild still has plus the verified role, minus the rejected ones |
| `TortoiseServerCog.AddLoopAsWritten` | bot/cogs/tortoise_server.py:215-224 | the add loop as written leaves the lock set exactly when some attempt is a role the guild no longer has; otherwise it performs the corrected loop's actions (with `AsWrittenStaleLocks`, `AsWrittenAgreesWithoutStale`, `StaleRoleLeavesLockSet`) |
| `TortoiseServerCog.StaleRoleLeavesLockSet` | bot/cogs/tortoise_server.py:213-224 | as written, a stored id the guild no longer has ends the loop before the verified role and leaves the lock set |
| `TortoiseServerCog.AsWrittenStaleLocks` | bot/cogs/tortoise_server.py:213-224 | as written, any missing role in the list leaves the lock set |
| `TortoiseServerCog.AsWrittenAgreesWithoutStale` | bot/cogs/tortoise_server.py:218-224 | without missing roles the loop as written equals the corrected loop and clears the lock |
| `TortoiseServerCog.GetAssignableRole` | bot/cogs/tortoise_server.py:250-262 | a role exactly when the emoji is mapped and the guild has the mapped role id, and then that role |
| `TortoiseServerCog.ReactionAddLog` | bot/cogs/tortoise_server.py:227-238 | acts only on the designated channel, never for the bot's own user, only with a role; then adds it and sends a DM, or stops at a rejected add |
| `TortoiseServerCog.TortoiseServer.OnRawReactionAdd` | bot/cogs/tortoise_server.py:227-238 | the handler's log and grants are those of the reaction-add decision |
| `TortoiseServerCog.ReactionRemoveLog` | bot/cogs/tortoise_server.py:241-248 | acts only on the designated channel and only with a role; then removes it |
| `TortoiseServerCog.TortoiseServer.OnRawReactionRemove` | bot/cogs/tortoise_server.py:241-248 | the handler's log and grants are those of the reaction-remove decision |
| `ApiClient.NewResponseCodeError` | bot/api_client.py:21-30 | keeps status and text; a truthy JSON body is kept, a missing one or any falsy one (`None`, empty, zero, false) becomes the empty dictionary |
| `ApiClient.ErrorMessage` | bot/api_client.py:32-34 | the message starts with "Status: " and ends with the shown response; `ErrorMessageRoundTrip` and `ErrorMessageShowsStringBare` state what lies between and how the body is shown |
| `ApiClient.ErrorMessageRoundTrip` | bot/api_client.py:32-34 | the message "Status: <n> Response: <shown>" reads back to the status and the shown body, which is the JSON as `str` writes it when non-empty, else the text |
| `ApiClient.ErrorMessageShowsStringBare` | bot/api_client.py:32-34 | a non-empty JSON string body appears in the message as itself, unquoted; a non-empty dictionary appears as its repr |
| `ApiClient.UrlFor` | bot/api_client.py:43-44 | every URL is the fixed base prefix followed by the endpoint |
| `ApiClient.UrlForInjective` | bot/api_client.py:43-44 | different endpoints give different URLs |
| `ApiClient.IdEndpointInjective` | bot/api_client.py:128 | endpoints of the form prefix/{id}/ are equal only for equal ids |
| `ApiClient.RaiseForStatus` | bot/api_client.py:47-55 | an error exactly when status >= 400, with that status; from a JSON body it carries that body when truthy (else the empty dictionary) and empty text, and shows the body as `str` writes it; from a text body it carries the empty dictionary and shows the text |
| `ApiClient.Outcome` | bot/api_client.py:57-75 | a ResponseCodeError exactly for status >= 400, a content-type error for a text body otherwise, else the JSON body |
| `ApiClient.DeleteOutcome` | bot/api_client.py:77-83 | 204 returns no value without the status check; any other status goes through the same path as the other verbs |
| `ApiClient.DeleteNoContentSkipsBody` | bot/api_client.py:79-80 | a 204 delete returns nothing even with a non-JSON body, which the other verbs would reject |
| `ApiClient.IsVerified` | bot/api_client.py:97-112 | on success the `verified` field; on an error response false, or the error re-raised when `re_raise` is set; a ResponseCodeError only with `re_raise` and status >= 400; below 400 a text body fails with a content-type error, a dictionary without `verified` with a key error, any other JSON with a type error |
| `ApiClient.DoesMemberExist` | bot/api_client.py:90-95 | true exactly when `is_verified(re_raise=True)` raises nothing, false exactly for an error status; other exceptions pass through |
| `ApiClient.NotFoundMeansAbsent` | bot/api_client.py:90-112 | any error response means "does not exist" and "not verified" |
| `ApiClient.InsertNewMember` | bot/api_client.py:114-124 | POST to members/ of exactly the keys user_id, guild_id, join_date, name, tag, member, with the member's ids, the join date, name and tag, marked present and without a leave date |
| `ApiClient.MemberRejoined` | bot/api_client.py:126-128 | PUT to members/edit/{id}/ of exactly the keys user_id, guild_id, member, leave_date: the member's ids, member = true together with leave_date = null |
| `ApiClient.MemberLeft` | bot/api_client.py:130-137 | PUT to members/edit/{id}/ of exactly the keys user_id, guild_id, leave_date, member: the member's ids, the leave date and member = false |
| `ApiClient.EditMemberRoles` | bot/api_client.py:150-158 | PUT to members/edit/{id}/ of exactly the keys user_id, guild_id, roles: the member's ids and the role ids in order, leaving presence fields alone |
| `ApiClient.PresenceWritesTargetOneRecord` | bot/api_client.py:126-158 | rejoin, leave and role writes of a member share one URL, and that URL belongs to that member alone |
| `ApiClient.StoredWarnings` | bot/api_client.py:227 | success exactly when the record's `warnings` value is a list of strings, and then those strings in order; a record without the key raises a lookup error |
| `ApiClient.MetaWarnings` | bot/api_client.py:226-227 | a failed meta fetch propagates; a successful one gives exactly the stored warnings of the record, success or error |
| `ApiClient.GetMemberWarnings` | bot/api_client.py:216-229 | each stored warning deserialised in order; errors propagate |
| `ApiClient.GetMemberWarningsCount` | bot/api_client.py:231-232 | the number of stored warnings |
| `ApiClient.AddMemberWarning` | bot/api_client.py:234-246 | PUT to member/meta/{id}/ of a payload whose only key is `warnings`: the old warnings deserialised, in order, then exactly one new entry, the serialised new warning: the count grows by one |
| `Extensions.SelectionAppend` | bot/__main__.py:37-44 | the selection of a concatenation is the concatenation of selections: input order is kept |
| `Extensions.SelectionMembers` | bot/__main__.py:40-44 | a name is selected exactly when it is in the input and passes both filters |
| `Extensions.SelectionRespectsFilters` | bot/__main__.py:40-44 | banned names are never loaded; with a non-empty allow set only allowed names; with an empty one every non-banned name |
| `Extensions.ShippedSettings` | bot/__main__.py:29-30 | with the shipped settings every cog except captcha_verification and test is loaded |
| `Extensions.Bot.LoadExtension` | bot/__main__.py:49 | loading adds the module path, unless it raises |
| `Extensions.LoadCogs` | bot/__main__.py:37-53 | every selected name is attempted in input order whatever happened before; the bot holds exactly those that loaded |

## Left out

- The Discord SDK is not modelled: gateway delivery, caching, embeds, message texts, deletion timers. Role changes, channel posts and direct messages appear only as actions in a log.
- aiohttp sessions, the bearer token and the actual HTTP exchange are left out. Each client operation takes the response it would get.
- Writes to the API are assumed to succeed: a failing PUT or POST inside a handler is not modelled. The API is assumed to merge a PUT field by field and to create a new record as present, unverified and with no roles.
- on_member_update: a roles write for a member without a record is logged, but the record map is not changed. The API's 404 for it is not modelled.
- The periodic tasks (the 24 h rule refresh, the 5 min member-count rename), `refresh_rules`, `submit` with its 300 s wait, `send` and the long-message warning of `on_message` are left out: they are scheduling or message I/O with no decision logic.
- `_new_member_direct_access` is left out: nothing calls it.
- The rules cache being `None` before its first refresh is left out: the rules are a given list.
- The `rule` command's argument arrives already converted to an int or a string. The `Union[int, str]` converter of the command framework is not modelled.
- Concurrency is not modelled: handlers run one at a time. The lock is modelled sequentially, so the race of a role-change event arriving after the lock is cleared is out of scope.
- `guild.get_member` returning nothing, and reactions in a guild other than the bot's own, are left out. The cog's guild is used for every reaction.
- `get_member_roles`, `get_member_data`, `get_all_members`, `get_all_rules` and the suggestion calls (`post_suggestion`, `put_suggestion`, `delete_suggestion`, `get_suggestion`, `get_all_suggestions`) are not modelled as operations of their own: they only pass an endpoint and a payload to the generic verbs. How those verbs treat any response is `ApiClient.Outcome` and `ApiClient.DeleteOutcome`. A failing `get_member_roles` during a rejoin is left out.
- TortoiseServerCog.TortoiseServer.MetaLookup: the meta read fails exactly when the member has no record. A read that fails for an existing member (a 5xx answer, say) is not modelled. The source sends it to registration too (bot/cogs/tortoise_server.py:133-134), so such a member would be inserted again.
- Logging, environment variables, `load_dotenv`, the file-system glob in `__main__` and `bot.run` are left out. The cog names are an input list.
- Rules.RuleByAlias: lower-cases only the ASCII letters. Python's `str.lower` also maps letters of other alphabets.
- Json.Repr: writes strings in single quotes without Python's escaping or its switch to double quotes, and has no floating-point numbers. This concerns strings nested in a list or dictionary; a top-level string body is shown unquoted (`Json.Str`). `ApiClient.ErrorMessageRoundTrip` is about that rendering.
- Json.Field: when a key is duplicated it returns the first value. Python's JSON decoder keeps the last.
- ApiClient.GetMemberWarnings: `json.loads` is a total function parameter, so a stored warning that is not valid JSON is not modelled.
- TortoiseServerCog.ClassifyJoin: assumes one member record behind `member/meta/{id}/`, `members/edit/{id}/` and `members/{id}/roles/`, with typed `verified` and `leave_date` fields. The handler reads `member_meta["leave_date"]` and `member_meta["verified"]` (bot/cogs/tortoise_server.py:136, 139) from `get_member_meta`. The return format documented at bot/api_client.py:199-213 lists neither key. If the API answers that way, a returning member's join raises `KeyError`. That path is not modelled.
- ApiClient.StoredWarnings: a `warnings` value that is a string or a dictionary counts as a type error. Python would instead iterate over the string's characters or the dictionary's keys and pass each to `json.loads`.
- TortoiseServerCog.TortoiseServer.AddRolesLocked / AddVerifiedRolesToMember: model the loop the comment at bot/cogs/tortoise_server.py:213-214 intends, which passes over a stored role id the guild no longer has. As written, such an id ends the handler with an exception (see Findings, `TortoiseServerCog.AddLoopAsWritten`). The verified role is then never added and the lock stays set. The rest of the rejoin is skipped too: `member_rejoined`, the log entry and the welcome-back DM (bot/cogs/tortoise_server.py:172-178). The handlers here do not show that outcome.
- Extensions.Bot.LoadExtension: the failure modes of `load_extension` (import error, already loaded, missing `setup`) are all summarised by the given set of failing paths.

## Findings

| source | as written | input that shows it | evidently intended | confidence | as-written member | corrected member |
|---|---|---|---|---|---|---|
| bot/cogs/tortoise_server.py:213-224 | only `HTTPException` is caught around `member.add_roles(role)`. For a stored role id the guild no longer has, `get_role` gives `None`, and `add_roles(None)` fails on `role.id` with a different exception. That exception leaves the loop before the verified role and skips clearing `_database_role_update_lock`, so every later `on_member_update` is ignored | a verified member returns with stored roles `[7]` and the guild has no role 7 | pass over such ids, as the comment at lines 213-214 says ("just catch Exception and ignore"), add the verified role and clear the lock | medium: relies on how discord.py's `add_roles` treats `None`; not executed | `TortoiseServerCog.StaleRoleLeavesLockSet` | `TortoiseServerCog.RestoredRoleSet` |
