# nuagex_lab reconciler, modelled in Dafny

The Ansible module `nuagex_lab` makes sure that one named NuageX lab either
runs (`state: present`) or does not exist (`state: absent`). It looks the lab
up by name, decides from the desired state and the observed lab whether
anything has to change, and, unless Ansible runs in check mode, deletes
and/or creates the lab, polling the listing endpoint after each request
until the lab is running or gone. The result it reports is `changed`
plus the lab's id, name, address and password.

This project models that decision core:

- `wrappers.dfy` (`Wrappers`): the `Option` type, standing for a value or Python's `None`.
- `json.dfy` (`Json`): JSON scalars and objects, and `dict.get`.
- `labs.dfy` (`Labs`): the `NuageLab` record, `from_json`, `as_json`,
  `is_runnung`, and the first-entry choice of `lab_by_name`.
- `client.dfy` (`Client`): the `NuageX` client as a class. It holds the log of
  requests the service has received. The service is an oracle
  `respond: seq<Call> -> seq<Object>`, which gives the listing the service
  returns after a given request history. `wait_lab` is a bounded `for` loop.
  It is proved against the function `WaitFrom`, which gives its result and
  its number of lookups.
- `reconciler.dfy` (`Reconciler`): `run_module`. `Decide` is the decision
  table: the `changed` flag and the ordered delete/create steps. `Run` is one
  invocation as a function. `RunModule` follows the source's if-chain,
  mutates a local result map as the source mutates its dict, and is proved
  equal to `Run`.
- `properties.dfy` (`ReconcilerProperties`): what each row of the table does
  to the request log and the report, check mode, the timeout behaviour, and
  idempotence of a second `present` run.

Behaviour of the code that the model keeps:
- every lab is created from the constant template id `5b1ea8267c4dd10001279c31`;
- a create whose wait exhausts its 20 lookups has no error of its own.
  `create_lab_sync` returns `False`, and `run_module` then calls
  `.as_json` on it, which raises an uncaught exception. The model's
  `Outcome.Crash` stands for that;
- the result of the delete wait is discarded, so a delete that never shows the lab gone still exits normally;
- any status other than `"started"` counts as "not running", including error states.

## Model

| member | source | states |
|---|---|---|
| `Labs.Lab.AsJson` | library/nuagex_lab.py:177-184 | the report of a lab fills exactly the four `lab_*` keys with id, name, address and password, and never touches `changed` |
| `Labs.FromJsonRunning` | library/nuagex_lab.py:167-188 | a decoded payload is running iff it carries the status `"started"` |
| `Labs.AsJsonFromJson` | library/nuagex_lab.py:167-184 | reporting a decoded payload maps `_id`, `name`, `externalIP`, `password` to `lab_id`, `lab_name`, `lab_address`, `lab_password`, with `None` for a missing key |
| `Labs.FirstLab` | library/nuagex_lab.py:97-99 | a listing yields no lab iff it is empty, otherwise its first entry decoded |
| `Labs.FirstLabIgnoresRest` | library/nuagex_lab.py:97-99 | first match: entries after the first never change which lab is chosen |
| `Client.WaitFrom` | library/nuagex_lab.py:117-125 | the wait makes at most `retries` lookups and at least one when `retries > 0`; it returns a lab only for `present` and only a running one, `True` only for `absent`, `False` only after using the whole budget |
| `Client.WaitStopsAtFirstMatch` | library/nuagex_lab.py:117-125 | every attempt before the last one missed the target; the answer comes from the first attempt that meets it; `False` is returned iff all `retries` attempts missed |
| `Client.NuageX.constructor` | library/nuagex_lab.py:69-75 | a client session over the service's behaviour and the requests it has already received |
| `Client.NuageX.LabByName` | library/nuagex_lab.py:97-99 | one listing request is logged; the answer is the first listed lab of the service's current listing, or none |
| `Client.NuageX.WaitLab` | library/nuagex_lab.py:117-125 | the loop returns what `WaitFrom` specifies and logs exactly that many lookups of the name |
| `Client.NuageX.CreateLab` | library/nuagex_lab.py:101-111 | one create request with the name, the fixed template id, the fixed expiry and reason |
| `Client.NuageX.CreateLabSync` | library/nuagex_lab.py:113-115 | create, then wait for `present` with 20 retries; a returned lab is running |
| `Client.NuageX.DeleteLab` | library/nuagex_lab.py:127-128 | one delete request for the lab's id |
| `Client.NuageX.DeleteLabSync` | library/nuagex_lab.py:130-132 | delete, then wait for `absent` by the lab's own name with 20 retries; never returns a lab |
| `Reconciler.Defaults` | library/nuagex_lab.py:201-207 | the initial result has `changed` and the four lab keys and nothing else, with `changed` false and every lab field the empty string |
| `Reconciler.Decide` | library/nuagex_lab.py:232-249 | `changed` iff the observed lab does not already meet the desired state; check mode plans no step; outside it steps exist iff something changes; a delete can only be first and targets the observed lab; a create can only be last and only for `present`; at most two steps |
| `Reconciler.RunModule` | library/nuagex_lab.py:191-251 | the branch-by-branch implementation returns the outcome and request log that `Run` specifies |
| `ReconcilerProperties.MissingCredentialsFail` | library/nuagex_lab.py:219-222 | without a non-empty username or password the run fails before any request, the username being checked first |
| `ReconcilerProperties.PresentRunningIsNoop` | library/nuagex_lab.py:233-234 | `present` with a running lab: only the lookup is sent, `changed` stays false and the result is the defaults overwritten by the lab's fields |
| `ReconcilerProperties.PresentRecreates` | library/nuagex_lab.py:235-245 | `present` without a running lab, outside check mode: the log ends with the create wait's lookups; the run crashes iff none of them saw the lab running, otherwise reports `changed` and the running lab it found |
| `ReconcilerProperties.PresentRequestOrder` | library/nuagex_lab.py:235-244 | in the log of a `present` run without a running lab, outside check mode: with no lab listed, the lookup is followed by one create and then only lookups; with a lab listed, by its delete and the delete wait's lookups, then one create and then only lookups |
| `ReconcilerProperties.AbsentRemoves` | library/nuagex_lab.py:246-249 | `absent`: `changed` iff a lab is listed, whatever its status; lab fields stay empty; with no lab only the lookup is sent; outside check mode a listed lab is deleted and waited for |
| `ReconcilerProperties.CheckModeOnlyLooks` | library/nuagex_lab.py:232-249 | check mode sends only the lookup, always exits, reports the same `changed` as a normal run that exits, and leaves the lab fields empty on every changing branch |
| `ReconcilerProperties.SecondPresentRunIsNoop` | library/nuagex_lab.py:233-245 | after a `present` run that exits, if the listing still shows what the run last saw, a second `present` run sends only its lookup and reports the same lab with `changed` false |

## Left out

- The login call `token()` and its cached token: network I/O. The model assumes login succeeds, so the "invalid credentials" failure is not modelled.
- `_api` and `_api_json`: HTTP, headers, JSON parsing, and the `fail_json` on a status outside 200-299. Every request is assumed to succeed. Listing answers come from the oracle `respond`.
- The response of the create POST, which `create_lab` decodes and `create_lab_sync` throws away.
- The empty `services`, `networks` and `servers` lists of the create body. They are constant and not logged.
- How `lab_by_name` and `delete_lab` format a value into the URL. The log keeps the value itself.
- `time.sleep` and `interval_seconds`: timing only.
- `Client.NuageX.WaitLab`: `retries` is a natural number, because a negative count gives zero iterations and every caller passes the default 20.
- Argument parsing by `AnsibleModule` and the `NUX_USERNAME`/`NUX_PASSWORD` defaults. The credentials are inputs.
- `exit_json`/`fail_json` termination is modelled by `Outcome`. The Ansible result and traceback formats are not.
- `NuageLab.__str__`, and the DOCUMENTATION, EXAMPLES and RETURN strings: text with no behaviour.
- JSON values other than scalars: `Json.Value` has null, booleans, integers and strings. A float, array or object in one of the five payload fields that `from_json` reads is not represented. Any non-string status is "not running" anyway.
