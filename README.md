# Stock-market dashboard: login gate and Monte Carlo simulation, modelled in Dafny

The dashboard is a single Streamlit script, `app.py`. It has a plaintext login
gate backed by a users file, and a Monte Carlo simulator of future stock prices.
This project models the parts of that script that have logic, and proves
properties about them.

- **Credentials** (`credentials.dfy`) models the users file as a
  `map<string, string>` from username to password. `UserStore` is the file,
  and `SaveUser` inserts or overwrites one entry in place. `Authenticates` is
  the sign-in form's credential test. `ValidateSignUp` is the sign-up form's
  three checks, in their fixed order: a taken username, then a password shorter
  than 6 characters, then a confirmation that differs. `SignUpUsers` is the
  users map after one sign-up attempt.
- **Sessions** (`sessions.dfy`) models the session record. It has three flags
  (`logged_in`, `username`, `page`). Its value is the datatype `State`, and the
  class `Session` updates it in place, as `st.session_state` does. Every
  method of the class is proved against a pure transition function
  (`AfterLogin`, `AfterSignUp`, `AfterLogout`, `AfterPageButton`).
- **Dashboard** (`dashboard.dfy`) models the script's top level as an
  event-driven system over the users file and one session. A logged-out
  session shows the Sign In / Sign Up buttons and the form that `page` selects.
  A logged-in session shows the Logout button. An interaction with a widget
  that is not on screen changes nothing. Lemmas over any sequence of
  interactions show two things:
  - A logged-in session always belongs to an account on file, and a logged-out
    one carries no username.
  - No account is ever removed or given a new password.
- **Simulation** (`simulation.dfy`) models the nested simulation loop and the
  gain/loss tally. Each Python list is a `PriceList` object that the loop
  appends to in place. The result list `simulatedpath` is a sequence of
  references to such objects, so the model captures the aliasing of the
  original. The normal samples are an input: one row of `days` daily returns
  per run. Prices are `real`.

The code and the design description disagree in one place, and the model
follows the code. The description says the simulation yields `runs` final
prices and that gains plus losses equal `runs`. In the code, the append at
app.py:154 sits inside the day loop, so `final_prices` has `runs * days`
entries. Each run's final price appears `days` times (see "## Findings").

## Model

| member | source | states |
|---|---|---|
| `Credentials.UserStore.constructor` | app.py:18-21 | The store holds exactly the map that the users file already contains. |
| `Credentials.UserStore.SaveUser` | app.py:26-30 | After saving, the name maps to the new password. The key set gains at most that name. Every other entry keeps its password. |
| `Credentials.ValidateSignUp` | app.py:73-79 | Each outcome holds exactly when its condition holds, and the conditions are checked in priority order. A taken name is rejected whatever the password. A new name with a password under 6 characters is rejected even if the confirmation matches. A new name with a long-enough but mismatched password is rejected. All three checks passing, and only that, gives Created. |
| `Credentials.SignUpUsers` | app.py:70-82 | A successful sign-up adds exactly the new name with its password. A rejected one leaves the map equal to the old one. Either way, every entry already on file keeps its password. |
| `Credentials.RejectedSignUpKeepsUsers` | app.py:73-78 | Whichever check fails, the users map is unchanged. |
| `Credentials.MinimumLengthPasses` | app.py:75-76 | A new name with a password of exactly 6 characters and a matching confirmation is accepted. |
| `Credentials.SignUpThenSignIn` | app.py:53 | After a successful sign-up, the new account accepts its own password and no other, so "alice"/"wrong" fails and "alice"/"secret1" succeeds. |
| `Credentials.SecondSignUpRejected` | app.py:73-74 | Registering a name a second time is rejected as taken, whatever the new password and confirmation. |
| `Credentials.SignUpKeepsOtherCredentials` | app.py:71-82 | A sign-up attempt never changes which password any existing account, or any name other than the new one, accepts. |
| `Sessions.AfterLogin` | app.py:52-59 | Login succeeds exactly when the name is on file with that password. Success sets `logged_in` and `username` and keeps `page`. Failure leaves the session unchanged. |
| `Sessions.AfterSignUp` | app.py:79-82 | A created account moves `page` to Sign In. Otherwise the session is unchanged. `logged_in` and `username` never change. |
| `Sessions.AfterLogout` | app.py:114-117 | From any session, logout gives exactly the initial record: not logged in, empty username, page Sign In. |
| `Sessions.AfterPageButton` | app.py:93-97 | The Sign In / Sign Up buttons set `page` to their target and leave `logged_in` and `username` alone. |
| `Sessions.Session.constructor` | app.py:35-40 | A new session starts logged out, with an empty username, on the Sign In page. |
| `Sessions.Session.Login` | app.py:50-59 | The returned flag is the credential test on the users file. The new session state is `AfterLogin` of the old one. |
| `Sessions.Session.SignUp` | app.py:70-82 | The outcome is `ValidateSignUp` on the file as it was. The file becomes `SignUpUsers` of the old file, so it is saved only on success. The session becomes `AfterSignUp` of the old one. |
| `Sessions.Session.Logout` | app.py:114-117 | The session record becomes exactly the initial record. |
| `Sessions.Session.ShowSignIn` | app.py:93-94 | Only `page` changes, to Sign In. |
| `Sessions.Session.ShowSignUp` | app.py:96-97 | Only `page` changes, to Sign Up. |
| `Dashboard.Start` | app.py:34-40 | A new session runs over the users file as persisted, with the initial session record. |
| `Dashboard.Step` | app.py:87-118 | No interaction removes an account or changes its password. A session becomes logged in only through a login whose credentials pass, and then under that name. A session becomes logged out only through Logout, which restores the initial record. |
| `Dashboard.StartIsConsistent` | app.py:35-40 | A new session is consistent: logged out, with no username. |
| `Dashboard.StepKeepsConsistent` | app.py:52-59 | Every interaction keeps the invariant: logged in implies the username is on file, and logged out implies the username is empty. |
| `Dashboard.RunKeepsConsistent` | app.py:87-118 | Any sequence of interactions keeps that invariant. |
| `Dashboard.ReachableIsConsistent` | app.py:35-118 | Every state reachable from a new session satisfies the invariant. |
| `Dashboard.RunKeepsAccounts` | app.py:73-82 | Across any sequence of interactions, an account on file stays on file with its original password. |
| `Dashboard.RegisterThenSignIn` | app.py:45-82 | Opening Sign Up and creating an account saves it and returns to the Sign In page. A login with a wrong password is then refused, and a login with the right one gives the logged-in session for that name. |
| `Simulation.PriceList.constructor` | app.py:150 | A run's list starts as just the last observed price. |
| `Simulation.PriceList.Append` | app.py:153 | Appending adds one price at the end of that list. |
| `Simulation.NextPricePositive` | app.py:152 | One step from a positive price under a return above -1 gives a positive price. |
| `Simulation.Path` | app.py:150-153 | A run's path has one price more than it has daily returns. It starts at the last observed price, and each price is the previous one times one plus that day's return. |
| `Simulation.PathSnoc` | app.py:151-153 | One more daily return appends exactly one price, computed from the previous last price. |
| `Simulation.PathStep` | app.py:151-153 | One iteration of the day loop takes the path for the first d returns to the path for d + 1. |
| `Simulation.AsWrittenPaths` | app.py:148-154 | Every entry of the result list as written is a non-empty list. |
| `Simulation.IntendedPaths` | app.py:148-154 | The intended result list has one entry per run, and entry r is the path of run r. |
| `Simulation.SimulateAsWritten` | app.py:148-154 | The nested loop as written leaves the result list showing each run's finished path, repeated once per day of that run, runs in order. This holds because every pushed reference is the run's single list, which keeps growing after it is pushed. |
| `Simulation.Simulate` | app.py:148-154 | The nested loop with the push after the day loop leaves the result list showing exactly one finished path per run. |
| `Simulation.FinalPrices` | app.py:157 | `final_prices` has one entry per entry of the result list: the last price of that list. |
| `Simulation.TallyPartition` | app.py:158-159 | Every final price is counted exactly once, so gains + losses equals the number of final prices. |
| `Simulation.AsWrittenLength` | app.py:149-154 | As written, the result list has runs * days entries. |
| `Simulation.AsWrittenFinalCount` | app.py:148-159 | As written, `final_prices` has runs * days entries, and gains + losses == runs * days. |
| `Simulation.AsWrittenMiscounts` | app.py:148-159 | With at least one run and at least two days, gains + losses as written is not `runs`. |
| `Simulation.IntendedFinalCount` | app.py:148-159 | With the corrected loop, `final_prices` has `runs` entries, and gains + losses == runs. |
| `Simulation.AsWrittenFinalsRepeatRuns` | app.py:154-157 | The final prices as written are the intended final prices, each repeated `days` times in run order. |
| `Simulation.TallyExpand` | app.py:158-159 | Repeating every final price n times multiplies both the gain count and the loss count by n. |
| `Simulation.AsWrittenTallyScales` | app.py:154-159 | As written, gains and losses are each exactly `days` times the intended counts, so the gain/loss proportions in the pie chart are those of one entry per run. |
| `Simulation.IntendedPathShape` | app.py:150-153 | Every run's path has days + 1 prices and starts at the last observed price. |
| `Simulation.PathStaysPositive` | app.py:152-153 | If the last observed price is positive and every daily return is above -1, every price on the path is positive. |
| `Simulation.NegativeReturnGivesNegativePrice` | app.py:152 | Nothing clamps prices: from 100 under a return of -2, the next price is -100. |

## Left out

- Reading, creating and writing the users JSON file (app.py:12-14, app.py:19-21, app.py:29-30) is I/O. The store is an in-memory map. The non-atomic read-modify-write of the file is not modelled.
- The CSV upload and pandas loading (app.py:125-135) are I/O. The model takes the last closing price as an input.
- `pct_change`, `mean` and `std` of the returns (app.py:144-146) are library floating-point statistics, so `mu` and `sigma` do not appear.
- `np.random.normal(mu, sigma)` (app.py:152) is an unseeded random generator. It is replaced by the injected `samples`, one row of `days` returns per run. With the samples fixed, both simulation methods' results are fully determined, which is the reproducibility the design asks for.
- Prices are `real`, so floating-point rounding and NaN are not modelled. In the source, a NaN `sigma` makes every price NaN, and then neither comparison at app.py:158-159 holds. Under the model, gains + losses always covers every entry.
- `np.mean` of the final prices (app.py:178, app.py:183) and all charts (app.py:131-135, app.py:161-181) are plotting and output.
- Streamlit rendering and the user-visible messages (`st.error`, `st.warning`, `st.success`) are not modelled. The sign-up result is the returned `SignUpOutcome`, and the login result is the returned flag.
- `st.rerun` and `st.stop` are not modelled as control flow. `Dashboard.Step` treats one interaction as one run of the script, and the widgets it accepts are those the script renders for the current state (app.py:87-104, app.py:114).
- The form's text inputs are method parameters, not widgets.
- `Sessions.Session.constructor`: it models a session in which none of the three keys exist yet. On a later rerun, app.py:35-40 leaves existing values alone, and that case is the identity, so it is not modelled separately.
- `Sessions.Page`: the record stores the strings "Sign In" and "Sign Up". The model uses a two-valued datatype. Only those two strings are ever assigned, and app.py:100-103 shows the sign-up form for anything other than "Sign In".
- `Simulation.FinalPrices`: it requires every entry to be non-empty. Python would raise on `path[-1]` for an empty list, but that never happens, because every list starts with the last observed price.

## Findings

| source | as written | input that shows it | evidently intended | confidence | as-written member | corrected member |
|---|---|---|---|---|---|---|
| app.py:154 | The result list is appended to inside the day loop, with a reference to the run's list, which keeps growing afterwards. `final_prices` (app.py:157) therefore has `runs * days` entries, and each run's final price appears `days` times. | runs = 100, days = 30 (the sliders' minimums) give 3000 final prices instead of 100, and gains + losses = 3000. | One entry per run: `runs` final prices, with gains + losses == runs, as the design describes. The proportions in the pie chart are unaffected, because both counts scale by `days` (`Simulation.AsWrittenTallyScales`). The histogram's bar heights are `days` times too large. | not executed | `Simulation.SimulateAsWritten`, `Simulation.AsWrittenMiscounts` | `Simulation.Simulate`, `Simulation.IntendedFinalCount` |
