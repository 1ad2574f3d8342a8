# URL shortener core, modelled in Dafny

This project models the rules under a URL shortener: a React front end
and a Spring Boot back end. The front end picks an app from the host name,
routes paths to pages, guards the dashboard, builds API requests with a
bearer token, and runs the forms and views (the shorten form, the
dashboard, its chart and the navigation bar). The back end generates short
codes, stores mappings and click events, counts clicks per date, redirects
a short code to its URL, registers users and configures access rules and
CORS.

Each source file has its own module. Pure code becomes functions and
lemmas. Components and services whose fields change in place become
classes whose methods are specified by those functions:

- `UrlShortener`, `DashboardPage` and `NavbarState` on the front end;
- `UrlMappingService`, `AuthController` and `CorsConfiguration` on the back end.

Shared pieces live in `Common` (an option type, JavaScript truthiness, the
62-letter code alphabet, `Array.find`) and `Strings` (JavaScript
`split`/`join`, Java `split`/`trim`). `Clicks` holds Java date-times and
the group-and-count step.

Inputs the model does not compute are parameters:

- network answers, the token, the base URL;
- the result of the WHATWG URL parser (`validUrl`);
- the current time (`now`);
- the point where the user store throws (`Fault`).

Random choices are nondeterministic picks from the alphabet. Repositories
are sequences. A Spring Data single-result lookup that finds two rows
fails; the model writes this as `Ambiguous` and `Threw`.

## Model

| member | source | states |
|---|---|---|
| Common.FindFirst | url-shortener-react/url-shortener-frontend/src/utils/helper.jsx:13-16 | `Array.find`: the index it returns holds the first element that satisfies the test; none means no element does |
| Strings.JoinSplit | url-shortener-react/url-shortener-frontend/src/utils/helper.jsx:24-27 | joining the pieces of a JavaScript split with the same separator gives back the string |
| Strings.SplitJoin | url-shortener-react/url-shortener-frontend/src/utils/helper.jsx:24-27 | splitting a join of separator-free pieces gives back the pieces |
| Strings.JavaSplit | url-shortener-sb/url-shortener-sb/src/main/java/com/url/shortener/security/WebSecurityConfig.java:87 | Java `split(",")` with limit 0: no separator gives the string alone; no piece holds the separator; the last piece is not empty; the pieces joined back are the string up to its trailing run of separators, which is all that is dropped |
| Strings.Trim | url-shortener-sb/url-shortener-sb/src/main/java/com/url/shortener/security/WebSecurityConfig.java:89 | Java `trim`: the slice of the string between its leading and trailing blanks (characters up to U+0020), neither end of which is blank |
| Strings.TrimIdempotent | url-shortener-sb/url-shortener-sb/src/main/java/com/url/shortener/security/WebSecurityConfig.java:89 | trimming a trimmed string changes nothing |
| Helper.SubdomainLabelCount | url-shortener-react/url-shortener-frontend/src/utils/helper.jsx:25-26 | the labels kept: all but the last when the last is exactly "localhost", otherwise all but the last two (none when there is one label) |
| Helper.SubDomain | url-shortener-react/url-shortener-frontend/src/utils/helper.jsx:23-28 | the subdomain never contains '.', because the kept labels are joined with no separator |
| Helper.SubDomainOfLabels | url-shortener-react/url-shortener-frontend/src/utils/helper.jsx:23-28 | for a host made of labels, the subdomain is the kept labels (localhost rule) concatenated |
| Helper.SingleLabelHost | url-shortener-react/url-shortener-frontend/src/utils/helper.jsx:23-28 | a one-label host, "localhost" included, has the empty subdomain |
| Helper.LocalSubDomainExample | url-shortener-react/url-shortener-frontend/src/utils/helper.jsx:21-28 | "url.localhost" gives "url" |
| Helper.BareDomainExample | url-shortener-react/url-shortener-frontend/src/utils/helper.jsx:22-28 | "example.com" gives "" |
| Helper.NestedSubDomainExample | url-shortener-react/url-shortener-frontend/src/utils/helper.jsx:27 | "a.b.example.com" gives "ab": the labels are run together |
| Helper.GetApps | url-shortener-react/url-shortener-frontend/src/utils/helper.jsx:10-19 | an empty subdomain gives the main entry's app; otherwise the first entry whose subdomain equals it exactly, else the main entry's app; no main entry makes the dereference fail |
| Helper.GetAppsFallsBackToMain | url-shortener-react/url-shortener-frontend/src/utils/helper.jsx:13-18 | with a single main entry for "" and no entry for the host's subdomain, the main app is chosen |
| Helper.GenerateShortCode | url-shortener-react/url-shortener-frontend/src/utils/helper.jsx:92-100 | the code has exactly 6 characters, each from the 62-letter alphabet A-Z, a-z, 0-9 |
| Helper.FormatNumber | url-shortener-react/url-shortener-frontend/src/utils/helper.jsx:57-65 | suffix "M" iff the number is at least 1,000,000, "K" iff it is in [1,000, 1,000,000), none below 1,000, and then the number itself |
| Helper.FormatNumberMonotone | url-shortener-react/url-shortener-frontend/src/utils/helper.jsx:57-65 | a larger number never gets a smaller suffix |
| Constants.RegistryHasOnlyMain | url-shortener-react/url-shortener-frontend/src/utils/constant.jsx:23-29 | the registry has exactly one entry, marked main, with subdomain "", and `find` picks it |
| Constants.EveryHostGetsMainApp | url-shortener-react/url-shortener-frontend/src/utils/constant.jsx:24-28 | every hostname resolves to `MainApp` |
| Constants.MainAppRouteTable | url-shortener-react/url-shortener-frontend/src/utils/constant.jsx:13-19 | `MainApp` routes exactly "/", "/about", "/login", "/dashboard" and "/shorten", none of them guarded |
| Constants.EndpointsUnderApi | url-shortener-react/url-shortener-frontend/src/utils/constant.jsx:37-44 | every API endpoint path starts with "/api/" |
| Router.PathSegments | url-shortener-react/url-shortener-frontend/src/AppRouter.jsx:19-35 | the segments are the pieces between the slashes after the leading one, up to a trailing run of slashes, which is all that is dropped; no segment holds a slash and the last is not empty |
| Router.LeadingEmptySegment | url-shortener-react/url-shortener-frontend/src/AppRouter.jsx:19-35 | a path starting "//" keeps an empty first segment (or has none, when it is slashes only) |
| Router.Resolve | url-shortener-react/url-shortener-frontend/src/AppRouter.jsx:19-35 | a path matched by exactly one listed route mounts that route's page (with its parameter); a path no listed route matches falls to the catch-all route |
| PrivateRoute.Guard | url-shortener-react/url-shortener-frontend/src/PrivateRoute.jsx:9-23 | placeholder iff loading; redirect iff not loading and the token is falsy, and then to "/login" with replace; the children iff not loading and the token is truthy |
| PrivateRoute.NoRedirectWhileLoading | url-shortener-react/url-shortener-frontend/src/PrivateRoute.jsx:9-15 | while loading there is never a redirect, whatever the token |
| AppRouter.ListedResolves | url-shortener-react/url-shortener-frontend/src/AppRouter.jsx:20-33 | each listed path ("/", "/login", "/register", "/shorten", "/s/:url", "/about", "/dashboard") mounts its own route |
| AppRouter.UnlistedResolves | url-shortener-react/url-shortener-frontend/src/AppRouter.jsx:34 | every other path mounts `ErrorPage` |
| AppRouter.DoubledSlashFallsThrough | url-shortener-react/url-shortener-frontend/src/AppRouter.jsx:34 | a path starting with a doubled slash, such as "//login", mounts `ErrorPage` unless it is slashes only |
| AppRouter.AppRouteTable | url-shortener-react/url-shortener-frontend/src/AppRouter.jsx:20-34 | every path mounts a page; only "/dashboard" is guarded; "/s/x" mounts `ShortenUrlPage` with url = x; unlisted paths mount `ErrorPage` |
| AppRouter.SubDomainRouteTable | url-shortener-react/url-shortener-frontend/src/AppRouter.jsx:43-49 | exactly the single-segment paths "/x" mount `ShortenUrlPage` with url = x; nothing else matches |
| AppRouter.AppMounted | url-shortener-react/url-shortener-frontend/src/AppRouter.jsx:26-33 | "/dashboard" is the only guarded route and the only one mounting the dashboard |
| AppRouter.AppScreen | url-shortener-react/url-shortener-frontend/src/AppRouter.jsx:26-33 | the dashboard is shown iff the path is "/dashboard", not loading and the token truthy; the login redirect and the placeholder only on that path; every other path shows its page |
| Api.BuildApiUrl | url-shortener-react/url-shortener-frontend/src/api.js:18-20 | the URL is the base URL followed directly by the endpoint, nothing inserted |
| Api.AuthHeaders | url-shortener-react/url-shortener-frontend/src/api.js:23-33 | Content-Type is always application/json; Authorization is present iff the token is truthy, and is then "Bearer " + token; no other keys (1 or 2 entries) |
| Api.ParseBearer | url-shortener-react/url-shortener-frontend/src/api.js:29 | a credentials value it accepts starts with "Bearer", then one or more spaces and nothing else, then a b64token (section 2.1 of RFC 6750) that ends the value |
| Api.BearerRoundTrip | url-shortener-react/url-shortener-frontend/src/api.js:29 | for a b64token, the Authorization header built from it parses back to the same token |
| Api.SpacedTokenIsNotBearer | url-shortener-react/url-shortener-frontend/src/api.js:28-29 | a truthy token with a space is sent, but the header is not a valid bearer credential |
| Shortener.AliasField | url-shortener-react/url-shortener-frontend/src/components/UrlShortener.jsx:48 | the alias sent is null iff the alias field is empty, otherwise the field itself |
| Shortener.SubmitSettles | url-shortener-react/url-shortener-frontend/src/components/UrlShortener.jsx:19-89 | after every submit `loading` is false; an error excludes a success message and a short URL |
| Shortener.SubmitChecks | url-shortener-react/url-shortener-frontend/src/components/UrlShortener.jsx:19-43 | checks in the order token, emptiness, parse: a request goes out iff all pass; a missing token navigates to "/register" with no error; an empty URL and an unparseable URL set their messages; no request keeps the inputs |
| Shortener.SubmitRequest | url-shortener-react/url-shortener-frontend/src/components/UrlShortener.jsx:45-58 | the request is a POST to base URL + endpoint with the token's bearer headers, the URL field and the alias (null when empty) |
| Shortener.SubmitSucceeds | url-shortener-react/url-shortener-frontend/src/components/UrlShortener.jsx:63-80 | a short URL is shown iff an ok answer carries a truthy code c, and it is base URL + "/" + c, with the success text and both inputs cleared |
| Shortener.SubmitFails | url-shortener-react/url-shortener-frontend/src/components/UrlShortener.jsx:63-86 | an ok answer without a code, a failed answer (its message, or "Failed to shorten URL") and a throw (network text) each set their error and keep the inputs |
| Shortener.UrlShortener.constructor | url-shortener-react/url-shortener-frontend/src/components/UrlShortener.jsx:8-13 | the form starts with empty fields, not loading, no requests and no navigations |
| Shortener.UrlShortener.GenerateShortUrl | url-shortener-react/url-shortener-frontend/src/components/UrlShortener.jsx:17-90 | the form's fields become those of the submit decision, and the request and navigation it makes are recorded |
| Dashboard.FormattedData | url-shortener-react/url-shortener-frontend/src/components/DashboardPage.jsx:73-79 | one row per (date, count) pair in order, ids 1..n consecutive, date and count copied |
| Dashboard.ReduceIsSum | url-shortener-react/url-shortener-frontend/src/components/DashboardPage.jsx:84-87 | the `reduce` with accumulator a gives a plus the sum of the counts |
| Dashboard.NumberFromSum | url-shortener-react/url-shortener-frontend/src/components/DashboardPage.jsx:84-88 | numbering the pairs keeps their counts' sum |
| Dashboard.TotalClicks | url-shortener-react/url-shortener-frontend/src/components/DashboardPage.jsx:84-88 | the total is the sum of the pairs' counts, 0 for no pairs, and not negative when no count is |
| Dashboard.TotalsUrl | url-shortener-react/url-shortener-frontend/src/components/DashboardPage.jsx:64-67 | the URL is the totals endpoint under the base URL, then `?startDate=` and the range's start date, then `&endDate=` and its end date |
| Dashboard.ViewOf | url-shortener-react/url-shortener-frontend/src/components/DashboardPage.jsx:134-160 | "Access Denied" iff the token is falsy, even while loading; the spinner iff a truthy token and loading; otherwise the dashboard |
| Dashboard.CopyTarget | url-shortener-react/url-shortener-frontend/src/components/DashboardPage.jsx:364-367 | the copied text is the base URL, "/", then the short code |
| Dashboard.CopyTargetIsShownLink | url-shortener-react/url-shortener-frontend/src/components/DashboardPage.jsx:364-367 | the link copied for a code is the short URL the form showed when it was created |
| Dashboard.DashboardPage.constructor | url-shortener-react/url-shortener-frontend/src/components/DashboardPage.jsx:9-13 | no links, no data, total 0, loading, no error |
| Dashboard.DashboardPage.FetchUserUrls | url-shortener-react/url-shortener-frontend/src/components/DashboardPage.jsx:41-60 | one GET with the bearer headers; an ok answer replaces the links; a failed answer sets "Failed to fetch URLs", a throw "Network error"; loading ends in every case; nothing else changes |
| Dashboard.DashboardPage.FetchGraphData | url-shortener-react/url-shortener-frontend/src/components/DashboardPage.jsx:62-95 | one GET for the date range; an ok answer sets the numbered data and their total; a failed answer or a throw sets its message; loading and the links never change |
| Dashboard.DashboardPage.OnTokenOrRange | url-shortener-react/url-shortener-frontend/src/components/DashboardPage.jsx:34-39 | with a falsy token nothing changes; with a truthy one both requests go out in order, the links, data and total are set as each fetch says, loading ends, and the error is the graph fetch's message if it failed, else the URL fetch's if that failed, else unchanged |
| Dashboard.DashboardPage.SetStartDate | url-shortener-react/url-shortener-frontend/src/components/DashboardPage.jsx:232-237 | only the start date changes |
| Dashboard.DashboardPage.SetEndDate | url-shortener-react/url-shortener-frontend/src/components/DashboardPage.jsx:253-258 | only the end date changes |
| Graph.ViewOf | url-shortener-react/url-shortener-frontend/src/components/Dashboard/Graph.jsx:21-55 | no data iff null or empty; no clicks iff data with every count 0; otherwise a chart whose labels and counts have the data's length and order, index by index |
| Graph.Tick | url-shortener-react/url-shortener-frontend/src/components/Dashboard/Graph.jsx:97-106 | a tick shows the data label at its index exactly when the index is a multiple of the stride (1 up to 7 labels, 2 up to 14, else ceil(n/10)), and is empty otherwise |
| Graph.Stride | url-shortener-react/url-shortener-frontend/src/components/Dashboard/Graph.jsx:104 | the stride is 1 up to 7 labels, 2 up to 14, and then ceil(n/10) |
| Graph.TickByStride | url-shortener-react/url-shortener-frontend/src/components/Dashboard/Graph.jsx:97-106 | the label at index i is shown iff i is a multiple of the stride, else the tick is empty |
| Graph.FirstTickShown | url-shortener-react/url-shortener-frontend/src/components/Dashboard/Graph.jsx:99-105 | the first label is always shown |
| Graph.AtMostTenTicks | url-shortener-react/url-shortener-frontend/src/components/Dashboard/Graph.jsx:96-106 | at most 10 labels are shown, matching the axis' tick limit |
| Navbar.Logout | url-shortener-react/url-shortener-frontend/src/components/Navbar.jsx:11-16 | token and user become null, exactly the keys "token" and "user" leave the store, every other key keeps its value |
| Navbar.LogoutIdempotent | url-shortener-react/url-shortener-frontend/src/components/Navbar.jsx:11-17 | logging out twice leaves the same session as once |
| Navbar.NavItems | url-shortener-react/url-shortener-frontend/src/components/Navbar.jsx:61-96 | Home, Shorten URL and About always; Dashboard and Logout iff the token is truthy; Login and Register iff it is not |
| Navbar.NavbarState.constructor | url-shortener-react/url-shortener-frontend/src/components/Navbar.jsx:7-9 | the menu starts closed |
| Navbar.NavbarState.HandleLogout | url-shortener-react/url-shortener-frontend/src/components/Navbar.jsx:11-17 | the session becomes its logout and the app navigates to "/" |
| Navbar.NavbarState.ToggleMenu | url-shortener-react/url-shortener-frontend/src/components/Navbar.jsx:19-21 | the menu flag flips; nothing else changes |
| Navbar.NavbarState.MobileLogout | url-shortener-react/url-shortener-frontend/src/components/Navbar.jsx:191-195 | logs out, navigates to "/" and closes the menu |
| Navbar.NavbarState.MobileLink | url-shortener-react/url-shortener-frontend/src/components/Navbar.jsx:151-155 | navigates to the link and closes the menu |
| Navbar.ToggleTwice | url-shortener-react/url-shortener-frontend/src/components/Navbar.jsx:19-21 | toggling twice restores the menu flag |
| Clicks.AtStartOfDay | url-shortener-sb/url-shortener-sb/src/main/java/com/url/shortener/services/UrlMappingService.java:96 | a timestamp is not before the start of a day iff its date is that day or later |
| Clicks.Group | url-shortener-sb/url-shortener-sb/src/main/java/com/url/shortener/services/UrlMappingService.java:77-80 | one entry per distinct date, each counting exactly that date's occurrences (so at least 1), counts adding up to the number of clicks |
| Clicks.CountByDay | url-shortener-sb/url-shortener-sb/src/main/java/com/url/shortener/services/UrlMappingService.java:97 | the map's keys are exactly the dates that occur, each mapped to how often it occurs |
| Clicks.CountByDayAt | url-shortener-sb/url-shortener-sb/src/main/java/com/url/shortener/services/UrlMappingService.java:97 | a date is a key iff it occurs, and then maps to its number of occurrences |
| Clicks.CountByDayTotal | url-shortener-sb/url-shortener-sb/src/main/java/com/url/shortener/services/UrlMappingService.java:97 | over a range holding every date, the map's counts add up to the number of clicks |
| Service.FindByShortUrl | url-shortener-sb/url-shortener-sb/src/main/java/com/url/shortener/services/UrlMappingService.java:73 | not found iff no mapping has the code; found gives the only mapping with it; two mappings with it make the lookup fail |
| Service.CollisionMakesLookupAmbiguous | url-shortener-sb/url-shortener-sb/src/main/java/com/url/shortener/services/UrlMappingService.java:35-42 | saving a second mapping with a code already in use makes that code's lookup fail |
| Service.ConvertToDto | url-shortener-sb/url-shortener-sb/src/main/java/com/url/shortener/services/UrlMappingService.java:46-55 | the DTO carries the mapping's id, original URL, short code, click count and creation date, and the owner's username |
| Service.DtoKeepsMapping | url-shortener-sb/url-shortener-sb/src/main/java/com/url/shortener/services/UrlMappingService.java:46-55 | two mappings with the same DTO agree on every field but the owner, and on the owner's username |
| Service.UrlsByUser | url-shortener-sb/url-shortener-sb/src/main/java/com/url/shortener/services/UrlMappingService.java:31-33 | no more DTOs than mappings, all carrying the user's username |
| Service.UrlsByUserExact | url-shortener-sb/url-shortener-sb/src/main/java/com/url/shortener/services/UrlMappingService.java:31-33 | the DTOs are exactly those of the mappings the user owns |
| Service.OwnedIndicesExact | url-shortener-sb/url-shortener-sb/src/main/java/com/url/shortener/services/UrlMappingService.java:31-33 | the positions of the user's mappings, strictly increasing, each holding one of them, none left out |
| Service.UrlsByUserInOrder | url-shortener-sb/url-shortener-sb/src/main/java/com/url/shortener/services/UrlMappingService.java:31-33 | one DTO per owned mapping in repository order: as many DTOs as owned positions, the k-th the DTO of the k-th owned mapping |
| Service.ClicksForRecord | url-shortener-sb/url-shortener-sb/src/main/java/com/url/shortener/services/UrlMappingService.java:106-109 | recording a click adds one to that mapping's click total and none to the others |
| Service.DaysBetween | url-shortener-sb/url-shortener-sb/src/main/java/com/url/shortener/services/UrlMappingService.java:75 | the dates of the clicks in an inclusive range lie between the range's dates |
| Service.DaysBetweenCounts | url-shortener-sb/url-shortener-sb/src/main/java/com/url/shortener/services/UrlMappingService.java:75 | each date occurs among the collected dates exactly as often as there are events of the mappings whose time lies in the inclusive range on that date |
| Service.DaysOnCounts | url-shortener-sb/url-shortener-sb/src/main/java/com/url/shortener/services/UrlMappingService.java:94-98 | the dates collected for the days start..end hold each day as often as the user clicked that day |
| Service.GetClickEventsByDate | url-shortener-sb/url-shortener-sb/src/main/java/com/url/shortener/services/UrlMappingService.java:72-92 | unknown code gives the empty list; a code saved twice fails; otherwise distinct dates in the range, counts at least 1, each date's count equal to the mapping's events in [start, end] on that date, summing to the events in the range |
| Service.TotalClicksAsWritten | url-shortener-sb/url-shortener-sb/src/main/java/com/url/shortener/services/UrlMappingService.java:94-98 | as written: each day of start..end is a key iff the user has clicks that day, mapped to their number; the only other possible key is the day after `end`, present iff the user has clicks at exactly its midnight and mapped to their number; the counts add up to the events the query returns |
| Service.AsWrittenMap | url-shortener-sb/url-shortener-sb/src/main/java/com/url/shortener/services/UrlMappingService.java:94-98 | the per-date map of the as-written query over any set of mapping ids: whole days for start..end, only the first instant of the day after |
| Service.WholeDaysBetween | url-shortener-sb/url-shortener-sb/src/main/java/com/url/shortener/services/UrlMappingService.java:96 | from the start of `start` to the start of the day after `end`, every day of start..end is counted whole |
| Service.MidnightBetween | url-shortener-sb/url-shortener-sb/src/main/java/com/url/shortener/services/UrlMappingService.java:96 | of the day after `end`, the inclusive upper bound takes in only the events at its first instant |
| Service.AsWrittenCountsNextMidnight | url-shortener-sb/url-shortener-sb/src/main/java/com/url/shortener/services/UrlMappingService.java:96 | a click at midnight after the end date is counted under that next date, which the corrected total omits |
| Service.TotalClicks | url-shortener-sb/url-shortener-sb/src/main/java/com/url/shortener/services/UrlMappingService.java:94-98 | every key lies in start..end and maps to the user's clicks that day (at least 1); every such day with clicks is a key; the map's counts over start..end add up to the user's clicks in the range |
| Service.AsWrittenAgreesOffMidnight | url-shortener-sb/url-shortener-sb/src/main/java/com/url/shortener/services/UrlMappingService.java:96 | with no click exactly at midnight after the end date, the written query and the intended one collect the same dates |
| Service.UrlMappingService.GenerateShortUrl | url-shortener-sb/url-shortener-sb/src/main/java/com/url/shortener/services/UrlMappingService.java:57-66 | the code has exactly 8 characters, each from the 62-letter alphabet |
| Service.UrlMappingService.CreateShortUrl | url-shortener-sb/url-shortener-sb/src/main/java/com/url/shortener/services/UrlMappingService.java:35-44 | exactly one mapping is appended, with the URL, owner, creation time, a generated code and 0 clicks; the DTO mirrors it; click events unchanged; the store invariant holds |
| Service.UrlMappingService.GetOriginalUrl | url-shortener-sb/url-shortener-sb/src/main/java/com/url/shortener/services/UrlMappingService.java:100-112 | a code saved once: that mapping's click count goes up by 1 and one click event for it is appended; unknown: null, nothing changes; saved twice: fails, nothing changes |
| Redirect.Respond | url-shortener-sb/url-shortener-sb/src/main/java/com/url/shortener/controller/RedirectController.java:21-27 | 302 with Location = the stored URL iff a mapping came back; 404 with no Location iff none; 500 iff the lookup failed |
| Redirect.HandleRedirect | url-shortener-sb/url-shortener-sb/src/main/java/com/url/shortener/controller/RedirectController.java:20-28 | 302 iff the code is saved once, with `Location` the stored URL; then exactly one click is recorded and the mappings are the old ones with that mapping's count up by one and nothing else changed; 404 iff unknown; anything but 302 leaves both stores unchanged; the next id never changes |
| Auth.JavaConcat | url-shortener-sb/url-shortener-sb/src/main/java/com/url/shortener/controller/AuthController.java:80 | the message is the prefix followed by the exception's message, or by "null" when the message is null |
| Auth.UsernameCheckedFirst | url-shortener-sb/url-shortener-sb/src/main/java/com/url/shortener/controller/AuthController.java:51-57 | a taken username gives 400 "Username already exists!", whatever the email, and nothing is saved |
| Auth.EmailCheckedSecond | url-shortener-sb/url-shortener-sb/src/main/java/com/url/shortener/controller/AuthController.java:60-66 | a new username with a taken email gives 400 "Email already exists!" and nothing is saved |
| Auth.RegisterSaves | url-shortener-sb/url-shortener-sb/src/main/java/com/url/shortener/controller/AuthController.java:68-76 | both new: one user saved with the request's username, password, email and role "ROLE_USER", 200 "User registered successfully!" |
| Auth.RegisterOutcomes | url-shortener-sb/url-shortener-sb/src/main/java/com/url/shortener/controller/AuthController.java:46-82 | answers are 200, 400 or 500; only 200 saves; 500 exactly when the store throws before a refusal, with "Registration failed: " and the message |
| Auth.RegisterTwiceRefused | url-shortener-sb/url-shortener-sb/src/main/java/com/url/shortener/controller/AuthController.java:51-76 | registering the same request again after it succeeded is refused |
| Auth.Login | url-shortener-sb/url-shortener-sb/src/main/java/com/url/shortener/controller/AuthController.java:32-43 | 200 with the token iff authentication succeeded; otherwise 500 (never 401) with a body of "Login failed: " followed by the message ("null" when it is null) |
| Auth.AuthController.RegisterUser | url-shortener-sb/url-shortener-sb/src/main/java/com/url/shortener/controller/AuthController.java:46-82 | the answer and the user store afterwards are those of the registration decision |
| WebSecurity.FirstMatch | url-shortener-sb/url-shortener-sb/src/main/java/com/url/shortener/security/WebSecurityConfig.java:65-70 | the access given is that of the first rule whose pattern matches |
| WebSecurity.PublicExactly | url-shortener-sb/url-shortener-sb/src/main/java/com/url/shortener/security/WebSecurityConfig.java:65-70 | a path is public iff it is under "/api/auth" or is a single non-empty segment; everything else needs a login |
| WebSecurity.UrlEndpointsNeedLogin | url-shortener-sb/url-shortener-sb/src/main/java/com/url/shortener/security/WebSecurityConfig.java:67-68 | paths under "/api/urls" need a login although "/{shortUrl}" is public |
| WebSecurity.Origins | url-shortener-sb/url-shortener-sb/src/main/java/com/url/shortener/security/WebSecurityConfig.java:84-94 | no comma: the URL verbatim as the only origin; otherwise one origin per Java-split piece, trimmed, in order; no origin holds a comma |
| WebSecurity.OriginsOfJoin | url-shortener-sb/url-shortener-sb/src/main/java/com/url/shortener/security/WebSecurityConfig.java:85-90 | origins without commas or blank ends, joined by commas, are read back exactly |
| WebSecurity.CorsConfiguration.AddAllowedOrigin | url-shortener-sb/url-shortener-sb/src/main/java/com/url/shortener/security/WebSecurityConfig.java:89 | appends the origin; nothing else changes |
| WebSecurity.CorsConfigurationSource | url-shortener-sb/url-shortener-sb/src/main/java/com/url/shortener/security/WebSecurityConfig.java:81-103 | the configuration allows the origins above, exactly GET, POST, PUT, DELETE and OPTIONS, any header, credentials, and is registered for "/**" |

## Left out

- JSX markup, styling, animation and chart options are not modelled. The landing page and `App.jsx` are not modelled either; they only compose components.
- The fetch transport, clipboard access and JSON parsing are not modelled. Responses are abstract inputs. `localStorage` is a map.
- The WHATWG URL parser behind `new URL(...)` and `validateUrl` is the opaque predicate `validUrl`.
- Date arithmetic in the dashboard is not modelled: the IST default range, `quickSetRange`, `setThisMonth`, `setThisWeek`, `toISOString` and `formatDate`. It depends on time zones and millisecond floats.
- Helper.FormatNumber: models only the choice of suffix and divisor, not the floating-point division and `toFixed(1)` rendering.
- `Math.random` and `java.util.Random` are not modelled. Each character is any letter of the alphabet. Generated codes are not taken to be unique, because the source never checks it; `Service.CollisionMakesLookupAmbiguous` shows what a collision does.
- Spring plumbing is not modelled: beans, the authentication provider, BCrypt, the JWT filter, `UserService` and the JPA repositories. Repository queries are written as sequence functions.
- Auth.AuthController.RegisterUser: stores the password as given; `UserService` is not part of this model, so any encoding it applies is not modelled.
- Auth.Login: the outcome of `authenticateUser` is an input. How it checks credentials and makes the token is not part of this model.
- `UrlMapping.java` and `User.java` are not part of this model. A new mapping is taken to start with click count 0 and to receive the next database id (`nextId`).
- Clicks.Group: `groupingBy` collects into a `HashMap`, whose iteration order is unspecified. The model fixes first-appearance order, so entry order in `getClickEventsByDate`'s list is not a promise.
- `getUrlsByUsers` (`UrlMappingService.java` lines 68-70) has the same body as `getUrlsByUser`, so `Service.UrlsByUser` models both.
- `UrlMappingController.java` is not part of this model. It delegates and parses dates; it reads only `originalUrl` and ignores `customAlias`.
- The `ContextApi` session provider is not part of this model. The session is only the token, user and loading fields the modelled files read and write.
- Out-of-order completion of overlapping dashboard fetches is not modelled. Each fetch runs as one step.
- Route matching works on the path's segments. Trailing slashes are ignored and leading or repeated inner slashes leave empty segments that no listed route matches. Case-insensitive matching, percent-decoding and Spring's normalisation of origins (`addAllowedOrigin` trimming a trailing slash) are not modelled.
- The front end's endpoint constants are not checked one by one against the access rules. `WebSecurity.PublicExactly` characterises every path: "/api/auth/..." is public and "/api/urls/..." needs a login.
- Service.UrlMappingService.GetOriginalUrl and Redirect.HandleRedirect: requests are served one at a time. `getOriginalUrl` (`UrlMappingService.java` lines 100-110) is not transactional: it reads the click count, adds one and saves it. Two concurrent redirects of one code can therefore lose an increment while both click events are saved. The invariant that a mapping's click count equals its number of click events, and the "count up by one" of a redirect, hold only for sequential requests.
- Java's `long` counts and the front end's double-precision numbers are unbounded integers here. No count comes near the limits.

## Findings

| source | as written | input that shows it | evidently intended | confidence | as-written member | corrected member |
|---|---|---|---|---|---|---|
| url-shortener-sb/url-shortener-sb/src/main/java/com/url/shortener/services/UrlMappingService.java:96 | the query runs `Between(start.atStartOfDay(), end.plusDays(1).atStartOfDay())`, and `Between` includes both bounds | a click at exactly 00:00 on the day after `end`: the result gains a key for that day, outside the requested range | only clicks on days `start` through `end` (a half-open upper bound) | not executed | `Service.TotalClicksAsWritten`, `Service.AsWrittenCountsNextMidnight` | `Service.TotalClicks` |
