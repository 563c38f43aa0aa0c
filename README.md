# Air-quality dashboard: session, guard, login and live chart, modelled in Dafny

This project models the client-side state logic of an Angular dashboard for indoor
air-quality sensors backed by Supabase. It has four parts.

- **Session service** (`Supabase`). The current-user subject is a tri-state `Identity`:
  `Unknown` stands for `undefined`, `Absent` for `null`, and `Present(user)` for a user.
  `authInitialized` guards `initializeAuth`. The session-change listener rewrites the
  subject on every notification. The storage adapter drops an expired persisted token
  when it is read.
- **Route guard** (`AuthGuard`). It is a pure function over the sequence of values the
  guard receives from the subject. It skips `Unknown`, takes the first determinate value,
  allows exactly when that value is a user, and redirects to `/login` otherwise.
- **Login page** (`Login`). The class covers the `loading`/`errorMessage` sequence of a
  submit, the fallback error text and the redirect on load.
- **Dashboard** (`Dashboard`, `ChartBuffer`). The selection state machine works over
  `selectedRoom`, `selectedSensor`, `latestData`, `chart` and `updateSubscription`. The
  chart is seeded by a map-and-reverse of the newest-first history. The live callback
  pushes onto and shifts off the label array and every dataset's value array in place.

Each async method is modelled as running to completion. Results of remote calls are
parameters of the method:
- `getSession` becomes a `SessionCheck`;
- `signInWithPassword` and `signOut` become a `Result` / `Outcome`;
- the three table queries become a `Result<seq<_>, FetchError>`.

`JSON.parse` is a parameter `parse: string -> StoredForm`. `Date.now()` is an integer
`now`. Rendering a timestamp as a clock time is a parameter `timeLabel` of the dashboard.
Whether `localStorage` throws is a boolean per call. Whether a canvas exists is a boolean
`canvasReady`. Navigations are recorded in a `navigations` sequence. A live feed is an
abstract `Subscription` handle, and the `live` set holds the feeds that currently deliver.

Behaviours of the code that are easy to miss, which the model keeps:
- **The seed is not truncated.** The chart keeps all of the up to 100 fetched readings.
  A chart seeded with at least 20 points keeps its length on every live update. Only a
  chart seeded with fewer than 20 points is bounded by 20 (`ChartBuffer.SlideAllLength`).
- **`selectRoom` does not release the live feed.** If the new room's sensor fetch fails
  or returns no sensors, the previous sensor's feed stays live. Its readings keep
  replacing `latestData` while no sensor is selected (`Dashboard.DashboardComponent.SelectRoom`).
- **`onSensorChange` may keep the old chart.** When the fetched history is empty, or
  there is no canvas, the previous chart stays, and the new feed appends to it.
- **`signOut` does not force the identity to absent.** It only passes the remote outcome
  through. Only a session-change notification moves the identity.
- **A failed session check leaves no listener.** When `initializeAuth` fails, it sets the
  identity to absent and marks itself initialized, but it never registers the listener.
  Later sign-ins are then not reflected in the subject (`SupabaseService.InitializeAuth`).

## Model

| member | source | states |
|---|---|---|
| `Supabase.Expired` | src/app/services/supabase.service.ts:57 | Only a parsed entry with a nonzero `expires_at` can be expired. A token whose `expires_at*1000` equals `now` is still live. |
| `Supabase.ExpiredStaysExpired` | src/app/services/supabase.service.ts:57 | An entry expired at some time stays expired at every later time. |
| `Supabase.GetItemOutcome` | src/app/services/supabase.service.ts:50-66 | The stored string is returned unchanged exactly when it can be read, is non-empty, parses, and has no truthy `expires_at` with `expires_at*1000 < now`. This includes the boundary `== now`. A read never writes and never touches another key. The key is dropped exactly when an expired entry is found and removing it does not throw. Read or parse errors yield null and leave the store alone. |
| `Supabase.SetThenGet` | src/app/services/supabase.service.ts:50-73 | Round trip: a non-empty, parseable, unexpired token written under a key is read back unchanged. |
| `Supabase.StorageAdapter.GetItem` | src/app/services/supabase.service.ts:50-66 | The in-place read returns `GetItemOutcome`'s value and leaves the store as `GetItemOutcome` says. |
| `Supabase.StorageAdapter.SetItem` | src/app/services/supabase.service.ts:67-73 | The key is set to the value; a storage error is swallowed and the store is left unchanged. |
| `Supabase.StorageAdapter.RemoveItem` | src/app/services/supabase.service.ts:74-80 | The key is removed; a storage error is swallowed and the store is left unchanged. |
| `Supabase.NotifiedIdentity` | src/app/services/supabase.service.ts:108 | A notification carries the session's user, or `Absent` without a session. It is never `Unknown`. |
| `Supabase.SupabaseService.constructor` | src/app/services/supabase.service.ts:38-40 | The subject starts as `Unknown` (its whole history is `[Unknown]`). The service is not initialized and no listener is registered. |
| `Supabase.SupabaseService.Publish` | src/app/services/supabase.service.ts:99-102 | `next` makes the value current and appends it to the subject's history. |
| `Supabase.SupabaseService.InitializeAuth` | src/app/services/supabase.service.ts:89-117 | If already initialized, nothing changes. Otherwise the subject becomes the session's user, or `Absent` when there is no session or on error, and the flag is set. The listener is registered only when the check did not fail. `Valid()` is kept: the subject is never `Unknown` again, and it is determinate exactly when initialized. |
| `Supabase.SupabaseService.OnAuthStateChange` | src/app/services/supabase.service.ts:106-109 | With the listener registered, each notification sets the subject to `session.user` or `Absent` and appends it to the history. Without a listener nothing changes. The subject never goes back to `Unknown`. |
| `Supabase.SupabaseService.SignIn` | src/app/services/supabase.service.ts:120-132 | The remote outcome is returned as it is, error included, and no state is written. |
| `Supabase.SupabaseService.SignOut` | src/app/services/supabase.service.ts:134-142 | The remote outcome is returned as it is, error included, and no state is written. |
| `Supabase.SupabaseService.GetCurrentUser` | src/app/services/supabase.service.ts:190-195 | Initialization runs only when the flag is false. It then has `InitializeAuth`'s effect on the pending session check: the subject becomes the session's user, or `Absent` when there is no session or on error. That value is appended to the history, and the listener is registered unless the check failed. The value a new subscriber receives first is determinate. If the service was already initialized, nothing changes. |
| `AuthGuard.FirstDeterminateIndex` | src/app/guards/auth.guard.ts:20-21 | The result is none exactly when every value is `Unknown`. Otherwise it is the position of a determinate value with only `Unknown` before it. |
| `AuthGuard.FirstDeterminate` | src/app/guards/auth.guard.ts:20-21 | `filter` + `take(1)` lets through the first non-`Unknown` value, and nothing when the stream is only `Unknown`. |
| `AuthGuard.CanActivate` | src/app/guards/auth.guard.ts:17-31 | There is no decision while the stream is only `Unknown`. Otherwise the guard allows exactly when the first determinate value is a user. It navigates to `/login` exactly when that value is `Absent`, and does not navigate when it allows. |
| `AuthGuard.FilterDropsUnknownHead` | src/app/guards/auth.guard.ts:20 | An `Unknown` at the head of the stream does not change the decision. |
| `AuthGuard.SkipsUnknown` | src/app/guards/auth.guard.ts:20 | Any run of leading `Unknown` values is skipped: the decision equals the decision on the rest. |
| `AuthGuard.TakesOne` | src/app/guards/auth.guard.ts:21 | Once a prefix of the stream decides, later values change nothing. |
| `AuthGuard.DecidesOnReplay` | src/app/guards/auth.guard.ts:17-31 | On an initialized service, a guard subscribing to the subject decides from the replayed current value, whatever follows it. |
| `ChartBuffer.Reverse` | src/app/components/dashboard/dashboard.component.ts:148-152 | `reverse()` keeps the length and puts element `i` at position `n-1-i`. |
| `ChartBuffer.Seed` | src/app/components/dashboard/dashboard.component.ts:148-152 | Labels, temperatures and humidities all have length `|data|`, with no truncation. Position `i` of each holds the label, temperature and humidity of `data[n-1-i]`: the three are index-aligned and oldest first. |
| `ChartBuffer.SeedDatasets` | src/app/components/dashboard/dashboard.component.ts:158-175 | The chart has two datasets: first `Temperature (°C)` with the seeded temperatures, then `Humidity (%)` with the seeded humidities. |
| `ChartBuffer.SeedIsAligned` | src/app/components/dashboard/dashboard.component.ts:144-175 | A seeded chart is aligned: both datasets are labelled and each is as long as the label series. |
| `ChartBuffer.Slide` | src/app/components/dashboard/dashboard.component.ts:112-134 | Push then shift on overflow. The result ends with the new value. It is one longer below 20 and the same length from 20 on. The surviving old points keep their order, and only the oldest is evicted. |
| `ChartBuffer.Shift` | src/app/components/dashboard/dashboard.component.ts:129-134 | `shift()` on an empty array leaves it empty. On a non-empty one the result is one shorter and element `i` is the old element `i+1`. |
| `ChartBuffer.Pushed` | src/app/components/dashboard/dashboard.component.ts:115-127 | The `switch` on the dataset's label: the label is kept. A temperature or humidity dataset gains one point, the reading's matching value, at its end, with its old points unchanged. Any other dataset is left alone. |
| `ChartBuffer.Advanced` | src/app/components/dashboard/dashboard.component.ts:115-134 | One reading on one dataset: the label is kept. A temperature or humidity dataset ends in the reading's value, after its old points minus the first one when the labels overflowed. Any other dataset only loses its first point on an overflow. |
| `ChartBuffer.AdvancedAll` | src/app/components/dashboard/dashboard.component.ts:115-134 | Every dataset is advanced: the number of datasets and their labels are kept. |
| `ChartBuffer.LiveUpdateSlides` | src/app/components/dashboard/dashboard.component.ts:112-134 | On an aligned chart one reading slides labels, temperatures and humidities in lock step, and the chart stays aligned (equal lengths, both datasets labelled). |
| `ChartBuffer.SlideAllLength` | src/app/components/dashboard/dashboard.component.ts:129-134 | After any run of appends, a seed of at least 20 points keeps its length. A shorter seed grows to `min(n + k, 20)`. |
| `ChartBuffer.SeedThenAppend` | src/app/components/dashboard/dashboard.component.ts:148-152 | A newest-first history `[r3, r2, r1]` is shown as `r1, r2, r3` in the labels, the temperatures and the humidities alike. One append then yields `r1, r2, r3, r4` in each of the three series. |
| `ChartBuffer.Chart.constructor` | src/app/components/dashboard/dashboard.component.ts:158-188 | The chart is created with the given labels and datasets. |
| `ChartBuffer.Chart.PushReading` | src/app/components/dashboard/dashboard.component.ts:112-127 | In place: the time label is appended to the labels, and every dataset becomes `Pushed` of its old value. |
| `ChartBuffer.Chart.EvictOldest` | src/app/components/dashboard/dashboard.component.ts:129-134 | In place: the first label is dropped and every dataset's value array is shifted. |
| `Dashboard.DashboardComponent.constructor` | src/app/components/dashboard/dashboard.component.ts:45-51 | The component starts with no rooms or sensors, nothing selected, no latest reading, no chart and no feed. |
| `Dashboard.DashboardComponent.LoadRooms` | src/app/components/dashboard/dashboard.component.ts:57-63 | `rooms` becomes the fetched list. A failed fetch keeps the previous list. |
| `Dashboard.DashboardComponent.ClearForRoom` | src/app/components/dashboard/dashboard.component.ts:65-70 | Before any fetch: `selectedRoom := room`, and the sensor, latest reading and chart are cleared. |
| `Dashboard.DashboardComponent.SelectRoom` | src/app/components/dashboard/dashboard.component.ts:65-81 | The room is selected. On fetch failure `sensors` keeps its old value, the sensor stays null and the old feed is untouched. With an empty list the sensor is null and no load happens. With a non-empty list the first sensor is selected and loaded: one new feed, and the chart is seeded when history exists. At most one feed stays live. |
| `Dashboard.DashboardComponent.ReleaseSubscription` | src/app/components/dashboard/dashboard.component.ts:86-89 | The held feed is released and the field is cleared, so no feed is live. |
| `Dashboard.DashboardComponent.Subscribe` | src/app/components/dashboard/dashboard.component.ts:101-103 | A feed for the sensor is opened with a fresh handle. |
| `Dashboard.DashboardComponent.OnSensorChange` | src/app/components/dashboard/dashboard.component.ts:83-142 | With no sensor selected, nothing changes. Otherwise the old feed is released first. A failed fetch keeps the latest reading and chart and leaves no feed. A successful fetch sets `latestData := data[0]` only for non-empty data and seeds a fresh chart only for non-empty data with a canvas. It then leaves exactly one live feed, the new one. |
| `Dashboard.DashboardComponent.UpdateChart` | src/app/components/dashboard/dashboard.component.ts:144-189 | With a canvas, a fresh chart shows `Seed(data)` with the temperature and humidity datasets. Without one, the chart is unchanged. |
| `Dashboard.DashboardComponent.OnLiveReading` | src/app/components/dashboard/dashboard.component.ts:103-138 | Only a live feed delivers. `latestData := newData` always. With a chart, labels and the datasets are pushed and then shifted on overflow. Each series equals `Slide` of its old value, and lengths stay equal. |
| `Dashboard.DashboardComponent.NgOnDestroy` | src/app/components/dashboard/dashboard.component.ts:200-205 | The held feed and the service channel are released, so no feed is live. |
| `Dashboard.DashboardComponent.Logout` | src/app/components/dashboard/dashboard.component.ts:191-198 | The component navigates to `/login` exactly when sign-out succeeds. |
| `Dashboard.ReloadIgnoresStaleFeed` | src/app/components/dashboard/dashboard.component.ts:86-103 | After a reload, the previous feed is not live, and a reading on it changes nothing. The latest reading is the reloaded one or the old one. The chart is the reseeded one, or else the old chart with its labels and datasets exactly as they were. Only the new feed is live. |
| `Login.ErrorText` | src/app/components/login/login.component.ts:82 | The message is never empty. It is the error's message when that is non-empty, and `'An error occurred during login'` otherwise. |
| `Login.RedirectOnInit` | src/app/components/login/login.component.ts:51-61 | The page redirects to `/dashboard` exactly when the first determinate value is a user. `Unknown` values are ignored. |
| `Login.RedirectMatchesGuard` | src/app/components/login/login.component.ts:51-61 | The page redirects on load exactly when the route guard would allow. |
| `Login.LoginComponent.constructor` | src/app/components/login/login.component.ts:39-40 | The page starts not loading, with an empty error message. |
| `Login.LoginComponent.NgOnInit` | src/app/components/login/login.component.ts:49-62 | The page navigates to `/dashboard` once if `RedirectOnInit` says so, and does nothing otherwise. |
| `Login.LoginComponent.BeginSubmit` | src/app/components/login/login.component.ts:64-70 | An invalid form changes nothing and makes no call. A valid one sets `loading`, clears `errorMessage`, and proceeds. |
| `Login.LoginComponent.FinishSubmit` | src/app/components/login/login.component.ts:74-85 | `loading` is false afterwards. On success the page navigates to `/dashboard` and the message is untouched. On failure the message is the error text. |
| `Login.LoginComponent.OnSubmit` | src/app/components/login/login.component.ts:64-86 | An invalid form changes nothing. Otherwise `loading` ends false. Success navigates to `/dashboard` with an empty message. Failure shows the error's message or the fallback. |

## Left out

- Chart.js rendering is not modelled: `new Chart` on a canvas, `chart.update()`, `chart.destroy()` and the canvas lookup. The chart is its label sequence plus its datasets. A missing canvas is the flag `canvasReady`.
- Time formatting is an uninterpreted parameter `timeLabel`, because `toLocaleTimeString` depends on locale and clock. The code reads `timestamp_received`, while the declared row type names `timestamp`. The model has the field the code reads.
- The Supabase client is not modelled: `createClient`, `getSession`, `signInWithPassword`, `signOut`, the table queries and the realtime channel. Their outcomes are method parameters.
- How `getSession` itself uses the storage adapter happens inside the client and is not modelled. The model proves nothing that ties an expired stored token to the session check.
- `getRooms`, `getSensors` and `getAirQualityData` are not modelled separately: they are pass-through wrappers that rethrow. The dashboard receives their outcome directly.
- `subscribeToAirQualityUpdates` and `unsubscribeFromAirQualityUpdates` are not defined in the service source. They are modelled only as acquiring a handle (`Subscribe`) and releasing the channel (`feedReleased`).
- Async interleaving is not modelled. Each async method runs to completion. So the model does not capture a stale fetch result arriving after a newer selection, a second `initializeAuth` started before the first settles, or `getCurrentUser` returning before the un-awaited initialization finishes.
- Registering the session-change listener is assumed never to throw. In the code it sits inside the `try` of `initializeAuth`. If it threw, the `catch` would publish `null` a second time, after the user, and leave no listener. `InitializeAuth` does not cover that path.
- Supabase.SupabaseService.GetCurrentUser: returns the first value a new subscriber receives instead of the observable itself. Under run-to-completion that value is already determinate, whereas the real subject may still replay `undefined`.
- Loose JavaScript values are not modelled: non-numeric `expires_at` and `NaN` count as "no expiry" inside `StoredForm`. A `null` error object in the login `catch` is not considered.
- In the login submit, `const { error } = await signIn(...)` reads a field that the resolved data never has, so the `if (error)` branch is dead. Success is therefore modelled as a resolved `signIn`.
- Form validation internals are reduced to a boolean `formValid`. Console logging, Angular decorators and dependency injection are dropped. Routing is reduced to the recorded navigation paths.
- `app.module.ts` (routing and module wiring) and `generate-env.js` (build-time file output) are not part of this model.
