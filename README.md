# SheSafe core, modelled in Dafny

SheSafe is a small personal-safety web application. A registered user logs in, sends an
emergency SMS carrying a map link to their position and places a voice call, and reads a log of
past alerts. Anyone can browse a catalog of welfare schemes filtered by age, income,
gender, state, marital status, education, pregnancy and religion. This project models
the logic behind those pages. It covers the scheme eligibility filter, the user store,
the session gate and the alert log. It proves properties of each.

Modules, one per component:

- `Wrappers` (wrappers.dfy): `Option`, used for every optional field of a scheme.
- `Text` (text.dfy): ASCII lower-casing, which stands in for Python's `str.lower()`.
- `Eligibility` (eligibility.dfy): schemes, applicant profiles, a single predicate
  `Passes(rule, s, p)` with one case per constraint (`Rule`), and the specification `Filter`. It also holds the explorer's loop `Explore`,
  which skips a scheme at its first failing constraint, as the source does.
- `Credentials` (credentials.dfy): the user store, a class over a `map<string, string>`
  from username to password, with registration and the login test.
- `Sessions` (sessions.dfy): the session, a class holding an `Option<string>` user, with
  login, logout and the gate in front of protected pages.
- `Alerts` (alerts.dfy): the alert record, the map link, the append-only alert log (a
  class over a `seq<Alert>`), the SOS handler and the alert dashboard.

Inputs that come from outside the program are parameters:

- the SMS/voice gateway's answer to each of its two requests (`Delivery`);
- the clock reading stored with an alert (`time`);
- the user file's contents as read at the start of each request, and the alert file's
  contents as read when the handler loads it (the constructors' `initial` values);
- the scheme catalog (`catalog`).

Details the model keeps exactly as the code has them:

- A scheme open to every state is one whose state list is exactly the one-element list
  `["All"]`. It is not a bare `"All"` string. A list such as `["All", "Delhi"]` is an
  ordinary list of states.
- Passwords are stored and compared as plain text, not as hashes.
- The gate uses Python's truthiness on the session's user. A session whose user is the
  empty string is therefore redirected like an anonymous one, even though logging in
  under the empty name succeeds.
- Only the exact value `"any"` is a wildcard. Religion `"Any"` is an ordinary value,
  compared after lower-casing.

## Model

| member | source | states |
|---|---|---|
| `Text.Lower` | app.py:226 | The lower-cased string has the input's length, and each character is the character at the same position with 'A'..'Z' mapped to 'a'..'z' |
| `Text.LowerIdempotent` | app.py:226 | Lower-casing twice gives the same string as lower-casing once |
| `Eligibility.Filter` | app.py:209-229 | The filter's result is no longer than the catalog, and every scheme in it comes from the catalog and is one the applicant is eligible for |
| `Eligibility.Explore` | app.py:194-229 | A GET shows no scheme. A POST's chain of skip-on-failure tests, run over the catalog, gives exactly `Filter(catalog, profile)` |
| `Eligibility.Passes` | app.py:210-226 | A rule passes when its field is absent, or is exactly "any" (marital status, education, religion), or its test holds: the state list is `["All"]` or contains the state, gender is equal, `min_age <= age`, `age <= max_age`, `income <= income_limit`, pregnancy is required only of a pregnant applicant, religion is equal after lower-casing. The contract states that a rule the scheme does not constrain always passes |
| `Eligibility.EligibleWhenAllPass` | app.py:210-229 | Being eligible holds exactly when the scheme passes all nine tests of the explorer's skip-on-failure chain, in both directions |
| `Eligibility.FilterAppend` | app.py:209-229 | Filtering a concatenation gives the concatenation of the filtered parts, so the result follows catalog order |
| `Eligibility.FilterMembership` | app.py:209-229 | A scheme is in the result if and only if it is in the catalog and the applicant is eligible for it |
| `Eligibility.FilterIsSubsequence` | app.py:209-229 | The result is a subsequence of the catalog: schemes are only dropped, never reordered or added |
| `Eligibility.FilterKeepsAllEligible` | app.py:209-229 | The filter returns the catalog unchanged if and only if the applicant is eligible for every scheme in it |
| `Eligibility.FilterIdempotent` | app.py:209-229 | Filtering the result again with the same profile returns the same sequence |
| `Eligibility.SingleViolationExcludes` | app.py:210-227 | One failing constraint of any kind keeps the scheme out of every result |
| `Eligibility.AllStatesAdmitEveryState` | app.py:210 | A scheme whose state list is `["All"]` passes the state test for every applicant state |
| `Eligibility.UnconstrainedSchemeIsShown` | app.py:210-229 | A scheme open to all states with no other constraint is in the result for every profile |
| `Eligibility.BoundsAreInclusive` | app.py:214-219 | `age == min_age`, `age == max_age` and `income == income_limit` each pass their test |
| `Eligibility.AnyIsNoConstraint` | app.py:220-227 | `"any"` as marital status, education level or religion gives the same eligibility as leaving the field out |
| `Eligibility.ReligionIgnoresCase` | app.py:226 | Two applicant religions with the same lower-case form get the same eligibility for every scheme |
| `Eligibility.ReligionLowerCaseProfile` | app.py:226 | Lower-casing the applicant's religion never changes eligibility |
| `Eligibility.GenderIsCaseSensitive` | app.py:212 | An applicant giving "Female" is not eligible for a scheme restricted to "female" |
| `Eligibility.ReligionCaseExample` | app.py:226 | A scheme for religion "Hindu" admits an applicant who wrote "hINDU" |
| `Eligibility.CapitalAnyIsNotAWildcard` | app.py:226 | A scheme whose religion is "Any" (capital A) is not a wildcard and excludes an applicant with no religion |
| `Eligibility.DelhiApplicantExample` | app.py:209-229 | For a 25-year-old woman in Delhi, a catalog of an all-states women's scheme (age at most 30, income at most 60000) and a Kerala-only scheme filters to the first scheme alone |
| `Credentials.Authenticates` | app.py:61 | Login's test: the name is a key and its stored password equals the one given, that is, the pair (name, password) is an entry of the store |
| `Credentials.CredentialStore.Register` | app.py:76-80 | A taken name is refused and leaves the store unchanged. Otherwise the store gains exactly that name with that password, and every other entry is kept |
| `Credentials.RegisteredUserAuthenticates` | app.py:61-80 | Right after a new name is registered, login under it succeeds exactly with the registered password |
| `Credentials.RegisterKeepsOtherLogins` | app.py:61-80 | Registering one name changes no other user's login result |
| `Credentials.RegisterTwice` | app.py:61-80 | A second registration of a name is refused. The first password still logs in, and the second logs in only if it equals the first |
| `Sessions.Session.Gate` | app.py:49-50 | A protected page proceeds, naming the session's user, exactly when a non-empty user is set; otherwise it redirects to login |
| `Sessions.Session.Login` | app.py:61-65 | Login succeeds exactly when the name is stored with that password. Success sets the session's user to that name; failure leaves the session unchanged |
| `Sessions.Session.Logout` | app.py:87 | After logout no user is set, whatever the previous state, so logging out twice is the same as once |
| `Sessions.RegisterLoginLogout` | app.py:49-88 | Register then login succeeds. Protected pages then proceed, unless the name is empty. After logout, repeated or not, they redirect |
| `Sessions.WrongPasswordKeepsSession` | app.py:61-65 | A wrong password is refused and leaves the session anonymous |
| `Alerts.LocationLink` | app.py:145 | The link is `"https://maps.google.com/?q=" + lat + "," + lon`: the prefix, then the latitude, a comma at the position after it, and the longitude to the end |
| `Alerts.LocationLinkRoundTrip` | app.py:145 | The map link `https://maps.google.com/?q=<lat>,<lon>` gives back the latitude and longitude it was built from, provided the latitude contains no comma |
| `Alerts.LocationLinkIsAmbiguous` | app.py:145 | Two different positions can have the same link when a coordinate contains a comma |
| `Alerts.AlertLog.Append` | app.py:164-172 | The log grows by exactly one entry, at the end, and every earlier entry is unchanged |
| `Alerts.SubmitSos` | app.py:136-178 | An anonymous request redirects. A failure of the SMS or of the call returns that error text and logs nothing. When both succeed, the log gains one alert with the session's user, the given phone, latitude, longitude and time, and the map link |
| `Alerts.Dashboard` | app.py:185-189 | The dashboard redirects exactly when no user is logged in, and otherwise shows the whole log in order |
| `Alerts.SosScenario` | app.py:136-175 | After login and a successful SOS, the new log holds one alert with the user's name, the phone, the time, and a link that decodes to the submitted position |

## Left out

- Reading and writing `users.json`, `alerts.json` and `schemes.json` (app.py:22-43, app.py:196-197) is file I/O. The stores and the catalog are in-memory values, and the constructors take the loaded contents.
- `Alerts.SubmitSos`: a failing `save_alerts` (app.py:173) is caught by the same handler as a gateway error (app.py:177-178), so the user gets the error text although the SMS and the call went out, and the alert is not persisted. The model has no write step and returns `AlertSent` there.
- `Credentials.CredentialStore.Register`: a failing `save_users` (app.py:80) is not caught, so the request fails after the in-memory insert; the model has no write step and always reports `Registered` for a new name.
- Reading `request.form['username']` and `request.form['password']` in login and register (app.py:58-59, app.py:73-74) is not modelled. A missing field raises there and the request fails; the model takes both as strings.
- The gateway's SMS and voice requests (app.py:148-161) are network calls. Their outcomes are the `sms` and `call` parameters of `SubmitSos`. The text of the SMS body and of the voice message (app.py:146, app.py:158) goes only to the gateway, so it is not modelled.
- The clock reading and its `%d-%m-%Y %H:%M:%S` format (app.py:171) are a clock dependency. The formatted time is the `time` parameter.
- Parsing the explorer's form (app.py:200-207) is left out. This covers `int()` on age and income and the failure on a non-numeric value, stripping the religion, and reading `pregnant == "yes"`. The profile arrives already typed, with its religion already stripped.
- Every request reads the user file or the alert file again and, after a change, writes the whole store back (app.py:57, app.py:72, app.py:80, app.py:164, app.py:173, app.py:188). The model keeps one in-memory store per class and does not represent these per-request reloads.
- A failed read gives an empty store (app.py:26-27, app.py:38-39). The next registration or SOS then writes that empty store, plus the one new entry, back over the file (app.py:80, app.py:173). The model does not represent this loss of the earlier records.
- A catalog record without a `"state"` key is not modelled. The source reads `scheme["state"]` without a presence test (app.py:210), so such a record raises `KeyError` and the whole explorer request fails. In the model `states` is a required field.
- A user record is the dict `{"password": p}` (app.py:79), read as `users[username]["password"]` (app.py:61). The model stores the password itself in `map<string, string>`, so the `KeyError` at login for a record without a `"password"` key is not represented.
- Catalog records whose fields have other JSON types (a bare string as `state`, a float age, a non-boolean `pregnant_required`) are not modelled: each field has one type.
- Unicode lower-casing: `Text.Lower` folds only the ASCII letters 'A'..'Z', while Python's `str.lower()` also folds other scripts.
- Flask routing, redirects and how the session is kept in a cookie are framework glue. All template rendering is left out (every page, the dashboard included). The explorer's GET is modelled as showing no scheme. A redirect or error string is a constructor of the response datatypes.
- The public pages (privacy, terms, buddy) and the protected content pages (home, product, solutions, community, resources, contact) only render a template. The protected pages' guard is `Sessions.Session.Gate`.
- `request.form.get` returning `None` for a missing SOS field (app.py:140-142) is not modelled: phone, latitude and longitude are strings.
- The server's start-up (app.py:234-235) and the gateway client's configuration (app.py:15-19) are not modelled.
- Concurrent requests are not modelled. The lost updates possible between two simultaneous registrations or alerts are therefore not represented.
