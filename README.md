# Sister in Safety: safe-location directory and dashboard state, in Dafny

This project models the two pieces of logic in the "Salama Dada" personal-safety
web app (repository `sister-in-safety`) that are more than view layout.

- **SafeMap** (`src/components/emergency/SafeMap.tsx`) is the safe-locations
  component. It ships a fixed five-entry catalog of police stations, hospitals and
  safe spaces. It lists that catalog through a filter keyed by a string (`"all"`
  or a location type). It looks up an icon and a colour for each type. It also
  holds two state cells: the selected filter and the last position the browser
  reported.
- **Dashboard** (`src/pages/Dashboard.tsx`) is the main page. It has three state
  cells: `isListening`, `emergencyActive` and `activeTab`. They are overwritten
  by the header's panic button, the voice widgets' callbacks, the alert's
  deactivate callback, and the tab and shortcut buttons. What the page shows
  is a function of those three cells.

Files:

- `wrappers.dfy` (module `Wrappers`): an `Option` type. It stands for TypeScript's
  `T | null` and for optional fields.
- `safe_locations.dfy` (module `SafeLocations`) covers SafeMap:
  - the `SafeLocation` record and the `Catalog`;
  - the filter, as `KeepType` (the `Array.filter`) and `FilterLocations` (the
    `"all"` ternary);
  - the icon and colour tables;
  - the user-location cell, as the pure step `NextUserLocation` and the replay
    `ReplayOutcomes`;
  - the class `SafeMap` with the component's two state cells.

  The record's `type` field is a union of three string literals. It is modelled
  as the enum `LocationType`, with `TypeName` giving its string and `ParseType`
  reading it back. So every entry's type is one of the three values by
  construction. The filter compares `TypeName(kind)` with the filter string, as
  the code compares strings.
- `dashboard_page.dfy` (module `DashboardPage`) covers the Dashboard:
  - the transitions, given once as the pure `Next` over a `State` value;
  - `Run`, which applies a series of callbacks;
  - `Render`, from a state to what is on screen;
  - the class `Dashboard`, which holds the three cells as fields. Each of its
    handler methods is proved to change its fields exactly as `Next` does, and
    to touch no other field.

The alert is one boolean. Every trigger sets it to `true` and never toggles it.
Deactivation sets it to `false` unconditionally, not only while the alert is up.
No trigger source, timestamp or lock is involved.

## Model

| member | source | states |
|---|---|---|
| `SafeLocations.ParseType` | src/components/emergency/SafeMap.tsx:10 | the three `type` strings read back to exactly the type whose name they are; every other string reads as none |
| `SafeLocations.CatalogIdsDistinct` | src/components/emergency/SafeMap.tsx:23-74 | the five catalog ids are pairwise distinct |
| `SafeLocations.KeepType` | src/components/emergency/SafeMap.tsx:96 | `filter` by type never returns more entries than it was given |
| `SafeLocations.KeepTypeMembership` | src/components/emergency/SafeMap.tsx:96 | `filter` by type keeps an entry if and only if it is in the list and its type string equals the filter value |
| `SafeLocations.KeepTypePreservesOrder` | src/components/emergency/SafeMap.tsx:96 | the filtered list is a subsequence of the input (strictly increasing positions of the input spell it out) |
| `SafeLocations.FilterAllIsIdentity` | src/components/emergency/SafeMap.tsx:94-95 | the value `"all"` gives the list itself: same entries, same length, same order |
| `SafeLocations.FilterKeepsExactlyMatching` | src/components/emergency/SafeMap.tsx:94-96 | for any value other than `"all"`, an entry is shown exactly when it is in the list and has that type |
| `SafeLocations.FilterPreservesOrder` | src/components/emergency/SafeMap.tsx:94-96 | for every filter value the shown list keeps the list's order and is no longer than it |
| `SafeLocations.UnknownFilterIsEmpty` | src/components/emergency/SafeMap.tsx:94-96 | a filter string that is neither `"all"` nor a type name shows nothing |
| `SafeLocations.TypeFiltersPartition` | src/components/emergency/SafeMap.tsx:96 | on any list, the sizes of the `"police"`, `"hospital"` and `"safe_space"` results add up to the list's size |
| `SafeLocations.CatalogAll` | src/components/emergency/SafeMap.tsx:23-74 | on the shipped catalog `"all"` lists ids 1, 2, 3, 4, 5 in that order |
| `SafeLocations.CatalogPolice` | src/components/emergency/SafeMap.tsx:23-74 | on the shipped catalog `"police"` lists id 1 only |
| `SafeLocations.CatalogHospital` | src/components/emergency/SafeMap.tsx:23-74 | on the shipped catalog `"hospital"` lists ids 2 and 5, in that order |
| `SafeLocations.CatalogSafeSpace` | src/components/emergency/SafeMap.tsx:23-74 | on the shipped catalog `"safe_space"` lists ids 3 and 4, in that order |
| `SafeLocations.CatalogCountsAddUp` | src/components/emergency/SafeMap.tsx:23-74 | the type filters give 1, 2 and 2 entries, which add up to the catalog's 5 |
| `SafeLocations.LocationIcon` | src/components/emergency/SafeMap.tsx:76-83 | total over all strings; the default pin icon comes back exactly for strings that are not a type name |
| `SafeLocations.LocationColor` | src/components/emergency/SafeMap.tsx:85-92 | total over all strings; `text-muted-foreground` comes back exactly for strings that are not a type name |
| `SafeLocations.TypesLookDistinct` | src/components/emergency/SafeMap.tsx:76-92 | two different types never share an icon or a colour |
| `SafeLocations.FailuresKeepLocation` | src/components/emergency/SafeMap.tsx:98-112 | a series of error or no-geolocation outcomes leaves the user-location cell as it was |
| `SafeLocations.NewestPositionWins` | src/components/emergency/SafeMap.tsx:98-112 | after any series of outcomes, the cell holds the coordinates of the newest success, whatever came before it |
| `SafeLocations.SafeMap.constructor` | src/components/emergency/SafeMap.tsx:19-20 | the component starts with filter `"all"`, no user location, and lists the whole catalog |
| `SafeLocations.SafeMap.SelectFilter` | src/components/emergency/SafeMap.tsx:147-175 | a filter button sets the filter to its own value and leaves the user location alone |
| `SafeLocations.SafeMap.ReceiveGeolocation` | src/components/emergency/SafeMap.tsx:98-112 | a success overwrites the user location with the new coordinates; an error, or a browser without geolocation, leaves it unchanged; the filter is untouched |
| `DashboardPage.Render` | src/pages/Dashboard.tsx:111-237 | at most one main panel is shown, exactly one when the active tab is one of the five ids, and it is that tab's panel; a voice widget is mounted exactly when the overview or voice panel is, and it is given `isListening`; the alert overlay is present exactly when `emergencyActive` is true |
| `DashboardPage.ActivationIsIdempotent` | src/pages/Dashboard.tsx:52 | the panic button and the voice trigger (lines 145 and 196) lead to the same state, with `emergencyActive` true whatever it was before; activating twice equals activating once; the tab and `isListening` do not change |
| `DashboardPage.DeactivationIsIdempotent` | src/pages/Dashboard.tsx:235 | deactivation makes `emergencyActive` false whatever it was before, twice equals once, and the tab and `isListening` do not change |
| `DashboardPage.TabSelectionFrame` | src/pages/Dashboard.tsx:75 | selecting a tab sets `activeTab` to its id and changes neither `emergencyActive` nor `isListening` |
| `DashboardPage.ListeningOnlyViaCallback` | src/pages/Dashboard.tsx:144 | `isListening` changes only through `onListeningChange`, which sets it to the given value and changes nothing else |
| `DashboardPage.OtherEventsKeepAlert` | src/pages/Dashboard.tsx:13 | a series of callbacks with no trigger and no deactivation leaves `emergencyActive` as it was |
| `DashboardPage.ActivatedStaysActive` | src/pages/Dashboard.tsx:52 | once the alert is up, it stays up through any series of callbacks that contains no deactivation, including further triggers |
| `DashboardPage.LastTriggerWins` | src/pages/Dashboard.tsx:145 | if a trigger comes after the last deactivation in a series of callbacks, the alert is up at the end |
| `DashboardPage.LastDeactivationWins` | src/pages/Dashboard.tsx:235 | if a deactivation is the last callback in a series that writes the alert flag, the alert is down at the end |
| `DashboardPage.ListeningIndependent` | src/pages/Dashboard.tsx:12 | `isListening` after any series of callbacks depends only on its starting value and the series, not on the emergency flag or the tab |
| `DashboardPage.TabStaysValid` | src/pages/Dashboard.tsx:23-29 | starting from a tab id, callbacks whose tab buttons pass tab ids only ever reach tab ids |
| `DashboardPage.ReachableTabs` | src/pages/Dashboard.tsx:14-29 | from the initial state the reachable `activeTab` values are exactly the five ids (each one is reached by its button), and every reachable state shows exactly one main panel |
| `DashboardPage.Dashboard.constructor` | src/pages/Dashboard.tsx:12-14 | the page starts not listening, with the emergency inactive and the `"overview"` tab open; no overlay, only the overview panel |
| `DashboardPage.Dashboard.PressPanicButton` | src/pages/Dashboard.tsx:48-55 | the state becomes `Next(old, PanicPressed)`: `emergencyActive` is true and the overlay is shown; the tab and `isListening` are unchanged |
| `DashboardPage.Dashboard.TriggerByVoice` | src/pages/Dashboard.tsx:142-146 | the state becomes `Next(old, VoiceTriggered)`, which is the same as for the panic button (the same callback is passed at line 196) |
| `DashboardPage.Dashboard.DeactivateAlert` | src/pages/Dashboard.tsx:233-236 | the state becomes `Next(old, AlertDeactivated)`: `emergencyActive` is false and the overlay is gone; the tab and `isListening` are unchanged |
| `DashboardPage.Dashboard.ChangeListening` | src/pages/Dashboard.tsx:144 | the state becomes `Next(old, ListeningChanged(b))`: `isListening` is `b`; the other two cells are unchanged |
| `DashboardPage.Dashboard.SelectTab` | src/pages/Dashboard.tsx:70-80 | for one of the five ids, the state becomes `Next(old, TabSelected(id))`: that tab is open and exactly one panel is shown; both flags are unchanged |

## Left out

- All JSX rendering, CSS classes and animations are left out. `Render` keeps only which panels, which voice widget and whether the alert overlay are mounted. `src/pages/Index.tsx` and `src/components/landing/Hero.tsx` are landing-page layout and are not part of this model.
- `navigator.geolocation.getCurrentPosition` is a browser call. Only its outcomes are modelled, as the input `GeolocationOutcome`: success with coordinates, error, or no geolocation service. Coordinates are opaque values that are never computed on. The error path's `console.error` is left out.
- `callLocation` and `getDirections` open `tel:` and Google Maps URLs through `window.open`, with `encodeURIComponent`. They are browser I/O and are left out.
- The `useEffect` that requests a position on mount is not modelled as a call. Its result arrives as a `ReceiveGeolocation` outcome.
- The model does not capture that the SafeMap component is remounted when the `"map"` tab is reopened. A remount resets its filter and user location to the constructor's values. That is React lifecycle, not logic in these files.
- `VoiceRecognition`, `EmergencyAlert` and `EmergencyContacts` are child components whose source is not part of this model. Their callbacks appear only as handler calls on `Dashboard`. The handlers have no precondition about which widget is mounted, because a parent's state setter stays callable even after the child unmounts. `Render` says where the widgets are on screen.
- `distance` is kept as the literal display string. The code never computes, rounds or sorts by it, so no distance ranking is modelled.
- The code has no trigger-source tracking, no activation timestamp, no "acquiring" position state and no locking. Its event handlers are single-threaded and set a boolean, so none of these is modelled.
- The hard-coded display numbers are left out. These are `emergencyStats` (`src/pages/Dashboard.tsx:16-21`) and the "3 / 5 / 4 nearby" badges (`src/pages/Dashboard.tsx:161-169`). They are mock text that does not agree with the catalog's 1 / 2 / 2.
- The filter buttons' highlight (`variant` chosen by `selectedFilter === ...`) and the "Location updated" caption are presentation and are left out.
