# Event finder: favorites, theme and home-screen logic in Dafny

This project models the logic of a small React Native event-finder app:

- the **favorites provider** (`FavoritesContext.js`): an ordered list of event
  records held in memory, loaded once from AsyncStorage under the key
  `favoriteEvents`, with `addFavorite` (append), `removeFavorite` (drop every
  entry with an id) and `isFavorite` (is some entry carrying the id). Each change
  updates the in-memory list first and then writes the whole list through to
  storage; a failed write is logged and not rolled back;
- the **theme provider** (`ThemeContext.js`): a dark-mode flag that starts light,
  is loaded from the key `themeMode`, and is negated and written through by
  `toggleTheme`;
- the **home screen's decisions** (`App.js`): when a fetch result replaces the
  event list, how the fetch and the location request set `errorMsg` and
  `loading`, which of loading text, error text, map or "no events" text the home
  screen shows, the markers on the map, and the icon of each tab.

Everything is a pure state-transition function over immutable values:

| file | module | what it holds |
|---|---|---|
| `js_values.dfy` | `JsValues` | `Option` (for `undefined`/`null`), JSON values, JavaScript truthiness, property access |
| `console.dfy` | `Console` | the error and warning entries the app logs |
| `storage.dfy` | `Storage` | AsyncStorage as a map from keys to stored strings; `JSON.stringify`/`JSON.parse` |
| `events.dfy` | `Events` | the event record and its JSON form, with a round-trip proof |
| `favorites.dfy` | `Favorites` | the favorites provider |
| `theme.dfy` | `Theme` | the theme provider |
| `app.dfy` | `App` | the app component's state, its transitions and the view selection |

Storage, the network and the location library are inputs. A stored string is
classified by what `JSON.parse` does with it: the text of a JSON value, or any
other text, the empty string included, on which `JSON.parse` throws. Whether an
AsyncStorage read or write succeeds is a Boolean parameter, and a failed write
leaves the storage as it was. The outcome of `fetch`, the permission status and
the position are parameters of the functions that handle them. Every operation
returns the new state, the new storage and the console entries it logged.

Three behaviours of the favorites provider are worth stating plainly:

- `addFavorite` appends unconditionally, so adding an id that is already
  present leaves two entries with it (`AddDoesNotDeduplicate`).
- A failed write is logged and the new list stands; the in-memory change is
  made before the write and is never undone (`NoRollback`).
- A stored value that cannot be read or parsed leaves the current list as it
  is; at startup that is the initial empty list.

## Model

| member | source | states |
|---|---|---|
| Favorites.Initial | FavoritesContext.js:7 | the provider starts with an empty list |
| Favorites.IsFavorite | FavoritesContext.js:49-51 | true exactly when some entry of the list carries the id |
| Favorites.WithoutIdMembership | FavoritesContext.js:40 | the filter keeps an event exactly when it was in the list with a different id |
| Favorites.WithoutIdDropsOnlyId | FavoritesContext.js:40 | the filter removes exactly the entries carrying the id (duplicates included), and leaves a list without the id unchanged |
| Favorites.WithoutIdConcat | FavoritesContext.js:40 | filtering keeps the relative order of the kept entries: it distributes over concatenation |
| Favorites.Load | FavoritesContext.js:10-21 | a present, non-empty stored list replaces the in-memory list; a missing or empty value leaves it; a failed read or unparsable value logs both error lines and leaves it; storage is never changed |
| Favorites.WriteThrough | FavoritesContext.js:30-31 | the in-memory list is the updated list whatever the write does; a successful write stores its serialisation, which reads back as that list; a failed write leaves storage unchanged and logs |
| Favorites.Add | FavoritesContext.js:27-35 | appends the event as the last element, keeps every earlier element, grows the list by one, makes the id a favorite, writes the new list through, logs a failed write, touches no other storage key |
| Favorites.Remove | FavoritesContext.js:38-46 | the new list is the order-preserving filter `WithoutId` of the old one: no entry with the id remains, every other entry is kept, an absent id changes nothing, the new list is written through, a failed write is logged, no other storage key is touched |
| Favorites.AddDoesNotDeduplicate | FavoritesContext.js:29 | adding gives one more entry with the id, so adding a present id leaves two or more |
| Favorites.RemoveUndoesAdd | FavoritesContext.js:29-40 | for an id not in the list, removing it after adding the event gives back exactly the earlier list |
| Favorites.NoRollback | FavoritesContext.js:28-45 | add and remove leave the same in-memory list whether or not the write succeeds, and a failed write leaves storage unchanged |
| Favorites.AddThenRestart | FavoritesContext.js:13-31 | after a successful add, a fresh provider loading the same storage holds the same list and the event is a favorite |
| Favorites.RemoveThenRestart | FavoritesContext.js:13-42 | after a successful remove, a fresh provider loading the same storage holds the same list, without the id |
| Favorites.IsFavoriteAppend | FavoritesContext.js:29-50 | after appending an event, an id is a favorite exactly when it was one or is the event's id |
| Favorites.IsFavoriteWithoutId | FavoritesContext.js:40-50 | after removing one id, another id is a favorite exactly when it was one before, and the removed id is not |
| Favorites.Replay | FavoritesContext.js:27-46 | after a run of adds and removes whose last write succeeded, storage reads back as the in-memory list |
| Favorites.ReplayMembership | FavoritesContext.js:27-51 | after any run of adds and removes, an id is a favorite exactly when the last call naming it was an add (as before when no call names it), whatever the writes did |
| Events.ListRoundTrip | FavoritesContext.js:15-31 | parsing the JSON written for a list of events gives back exactly that list |
| Theme.Initial | ThemeContext.js:8 | the mode starts as the Boolean false, which renders light |
| Theme.Load | ThemeContext.js:12-20 | a stored JSON value becomes the mode; no stored value leaves the mode; a failed read or unparsable value is logged and leaves the mode; storage is never changed |
| Theme.Toggle | ThemeContext.js:27-35 | the new mode is a Boolean that renders the opposite way; it is written under `themeMode`; a failed write is logged and the new mode stands; no other key is touched |
| Theme.ToggleTwice | ThemeContext.js:29-30 | toggling twice restores how the mode renders, and restores the mode itself when it is a Boolean |
| Theme.NoRollback | ThemeContext.js:28-34 | the toggled mode does not depend on whether the write succeeds, and a failed write leaves storage unchanged |
| Theme.ToggleThenRestart | ThemeContext.js:14-31 | after a successful toggle, a fresh provider loads the toggled mode |
| App.Initial | App.js:15-18 | no events, no location, no error message, loading |
| App.AcceptedEvents | App.js:29 | the response replaces the events exactly when it is an object whose `events` property is a non-empty array, and then with that array |
| App.FetchSettled | App.js:21-40 | loading ends on every path; a failed request, a non-ok response or an unreadable body sets the fetch error message and keeps the events; an accepted body replaces the events; any other body warns and keeps them; the location is untouched |
| App.LocationSettled | App.js:43-57 | a rejected permission request changes nothing and logs nothing; a status other than "granted" sets the denial message and leaves the location null; otherwise a found position is stored, or a failed one logged and reported; events and loading are untouched |
| App.StartupOrderMattersOnlyWhenBothFail | App.js:21-57 | when at most one of the two startup tasks fails, the final state does not depend on which settles first |
| App.StartupLastErrorWins | App.js:21-57 | when both startup tasks fail, the error message of the one that settles last is kept: the fetch message, or the denial or position-failure message |
| App.PermissionRequestFailureLeavesNoLocation | App.js:43-57 | when the permission request rejects, there is never a location, the only error message is the fetch's, and the screen shows that error or the "no events" text |
| App.Markers | App.js:137-146 | one marker per event, in order, each read off its own event |
| App.MarkerOfEvent | App.js:137-146 | the marker of an event record carries that event's id as key, its latitude, longitude, title and description |
| App.View | App.js:119-151 | loading shows the loading text; otherwise a non-empty error message is shown; otherwise the map, centred on the location with the event markers, exactly when there is a location and at least one event; otherwise the "no events" text |
| App.Caption | App.js:119-151 | the loading screen shows "Loading map...", the error screen shows the error message itself, the no-events screen shows "No events found or location not available." (two distinct non-empty texts), and the map shows no text |
| App.NotLoadingAfterFetch | App.js:37-39 | once the fetch has settled the home screen never shows the loading text |
| App.MapAfterSuccessfulStartup | App.js:127-146 | accepted events and a found position show the map with one marker per fetched event, in either settling order |
| App.DeniedPermissionShown | App.js:45-48 | a denied permission is what the home screen shows whenever the fetch succeeds, in either settling order |
| App.TabIcon | App.js:73-77 | the icon is "home" exactly for route Home, "settings" exactly for route Settings, undefined for every other route |

## Left out

- Favorites.Load: a stored favorites value that parses as JSON but is not an array of five-field event records is ignored, in full. The source would install it as the list, whatever its entries look like.
- Favorites.Add: accepts only an event record with a number or string id, a string title and description, and number coordinates. The source stores any object, so an event missing a field, or with a field of another kind, can be added, written and reloaded by the source but not by the model. Add, remove and `isFavorite` look only at `id`, so the model's results agree with the source's on every event it can represent.
- Events.FromJson: an event keeps only its `id`, `title`, `description`, `latitude` and `longitude`. Other properties of a fetched or stored event are not modelled. Ids are JSON numbers or strings, so `===` on object-valued ids (reference equality) is not modelled.
- App.Markers: property access on a `null` element of the fetched array would throw while rendering. The model reads every property of such an element as undefined.
- Concurrency: every operation is one atomic step. Two rapid `addFavorite`/`removeFavorite` calls that read the same captured list are not modelled. Neither are a load that settles after an add, or the fetch and location tasks interleaving inside their bodies. Only the two settling orders of the startup tasks are compared.
- I/O: AsyncStorage, `fetch`, the endpoint URL, `expo-location` and `JSON.parse`/`JSON.stringify` are foreign calls. They become the abstract storage map and the outcome parameters described above.
- The error objects printed after each console label, and the `console.log` debug output (App.js:28, App.js:62-65), are not modelled.
- Floating point: numbers are reals, so NaN, infinities and negative zero are not modelled.
- Rendering: styles, colours, `StatusBar`, the navigator, the map region deltas and the uniqueness of marker keys are user interface, not modelled.
- `i18n.js`, `Settings.js`, `Favorites.js` and `EventDetail.js` are translation configuration and rendering of props, not part of this model.
