# BlindSJN client state holders, in Dafny

This project models the state-holding core of the BlindSJN Android client, a
community app for small-business owners. Nearly all of the client is Compose
layout. What remains is a handful of view-models whose fields are overwritten
by their methods, plus one pure fallback rule:

- **Login** (`login.dfy`, `LoginViewModel.kt`): one `LoginUiState` record, a
  nullable success callback, and two coroutines. `login` and `checkAutoLogin`
  are guard chains: the loading flag, empty fields, the network check, the
  credential store, then the authentication gateway inside
  `try/catch/finally`. The gateway outcome (accepted, rejected, threw), the
  network answer and the stored credentials are parameters. A ghost event log
  records which collaborators were consulted, in order, and with which
  arguments. Each method is proved equal to a specification function
  (`LoginEffect`, `AutoLoginEffect`). The lemmas state each path's outcome
  about those functions.
- **Posts** (`posts.dfy`, `PostViewModel.kt`): the post list, the selected
  post, a status message and a report result. Each launched coroutine is one
  atomic method that takes the gateway's answer as a parameter. That answer is
  a 2xx response with an optional body, a non-2xx response, or an exception.
  The ghost log records the request envelopes sent and the reloads launched.
  A launched reload is not run inside the method that launches it; it is the
  later call of `LoadPosts`/`LoadPostById` with its own answer. Like counts
  are Kotlin `Int`s and wrap at 2^31 − 1.
- **Tag picker** (`tag_sheet.dfy`, `PostBottomSheetViewModel.kt`): a set
  toggle restricted to the enabled tags. It keeps the invariant "selected ⊆
  enabled".
- **Top bar** (`top_bar.dfy`, `TopBarViewModel.kt`): setters that replace the
  record wholesale with fixed flag patterns.
- **News body fallback** (`news_detail.dfy`, `NewsDetailScreen.kt`): the
  priority choice of body text and the two visibility conditions, extracted
  as pure functions. `Decimal` (`decimal.dfy`) is Kotlin's `Int.toString()`
  together with its inverse. `Wrappers` holds `Option`.

Three behaviours of the code are easy to misread, and the model states them as
the code has them:

- The three login popups are independent booleans. They can be raised
  together, and nothing stops a popup from being raised while `isLoading` is
  set.
- `toggleLike` launches its two reloads and calls its callback straight away,
  without waiting for them. The model records the reloads as launched, not as
  completed.
- The doc comment of `setOnLoginSuccess` (`LoginViewModel.kt:30-34`) says the
  callback also receives `false` when a login fails. Neither `login` nor
  `checkAutoLogin` ever makes that call: a refusal or an exception only raises
  the invalid-credentials popup. The model follows the code, and
  `LoginEffect` and `AutoLoginEffect` both state that `false` never reaches
  the callback.

## Model

| member | source | states |
|---|---|---|
| `Login.IsDigit` | app/src/main/java/com/glowstudio/android/blindsjn/feature/login/LoginViewModel.kt:48 | a character passes the phone filter iff it is one of `0`–`9` |
| `Login.FilterDigits` | app/src/main/java/com/glowstudio/android/blindsjn/feature/login/LoginViewModel.kt:48 | the filtered phone number holds only digits and is no longer than the input |
| `Login.FilterDigitsIsSubsequence` | app/src/main/java/com/glowstudio/android/blindsjn/feature/login/LoginViewModel.kt:48 | the filter keeps characters in their original order (the result is a subsequence of the input) |
| `Login.FilterDigitsCounts` | app/src/main/java/com/glowstudio/android/blindsjn/feature/login/LoginViewModel.kt:48 | each digit occurs in the result exactly as often as in the input, and no other character occurs |
| `Login.FilterDigitsIsLongest` | app/src/main/java/com/glowstudio/android/blindsjn/feature/login/LoginViewModel.kt:48 | no all-digit subsequence of the input is longer than the filtered string |
| `Login.FilterDigitsUnique` | app/src/main/java/com/glowstudio/android/blindsjn/feature/login/LoginViewModel.kt:48 | the filtered string is the only longest all-digit subsequence: exactly the input's digits, in order |
| `Login.FilterDigitsOfDigits` | app/src/main/java/com/glowstudio/android/blindsjn/feature/login/LoginViewModel.kt:48 | an all-digit input is stored unchanged, so filtering twice equals filtering once |
| `Login.LoginEffect` | app/src/main/java/com/glowstudio/android/blindsjn/feature/login/LoginViewModel.kt:117-152 | login never writes phone, password or auto-login flag and reads no storage; the gateway is called iff not loading, both fields are non-empty and the network is up; credentials are saved with the current flag iff the gateway accepts; the callback gets `true` iff accepted and one is set, and never gets `false`; the invalid-credentials popup is raised iff the gateway was reached and did not accept; loading is cleared at exit |
| `Login.AutoLoginEffect` | app/src/main/java/com/glowstudio/android/blindsjn/feature/login/LoginViewModel.kt:76-108 | offline, no storage is read and no call is made; the gateway is called iff online, auto-login is stored as enabled and credentials are saved; credentials are never saved; online, the stored flag is copied into the state; a call fills phone and password from the saved pair, clears loading in its `finally` and raises the invalid-credentials popup iff not accepted; the callback gets `true` iff accepted and set, and never gets `false`; loading is cleared at exit |
| `Login.LoginWhileLoadingIsNoOp` | app/src/main/java/com/glowstudio/android/blindsjn/feature/login/LoginViewModel.kt:118 | while loading, login changes no state and causes no event (no call, no callback) |
| `Login.LoginWithEmptyField` | app/src/main/java/com/glowstudio/android/blindsjn/feature/login/LoginViewModel.kt:121-124 | an empty field sets only the empty-fields popup, skips the network check and the gateway, and leaves loading as it was |
| `Login.LoginOffline` | app/src/main/java/com/glowstudio/android/blindsjn/feature/login/LoginViewModel.kt:126-129 | with the network down, only the network popup is set; the one event is the network check |
| `Login.LoginAccepted` | app/src/main/java/com/glowstudio/android/blindsjn/feature/login/LoginViewModel.kt:131-142 | on acceptance the state is unchanged (no popup, loading cleared); the events are the network check, the gateway call, the save with the current auto-login flag, then the `true` callback if one is set |
| `Login.LoginRefused` | app/src/main/java/com/glowstudio/android/blindsjn/feature/login/LoginViewModel.kt:143-150 | a rejection or an exception sets only the invalid-credentials popup; nothing is saved and no callback runs |
| `Login.SaveBeforeCallback` | app/src/main/java/com/glowstudio/android/blindsjn/feature/login/LoginViewModel.kt:136-142 | the save of the credentials comes before the success callback in the event log |
| `Login.AutoLoginOffline` | app/src/main/java/com/glowstudio/android/blindsjn/feature/login/LoginViewModel.kt:78-81 | offline auto-login sets only the network popup and consults nothing but the network |
| `Login.AutoLoginSkipped` | app/src/main/java/com/glowstudio/android/blindsjn/feature/login/LoginViewModel.kt:83-87 | with auto-login disabled or nothing saved, only the auto-login flag changes and the gateway is not called |
| `Login.AutoLoginAsLogin` | app/src/main/java/com/glowstudio/android/blindsjn/feature/login/LoginViewModel.kt:86-105 | with saved non-empty credentials, auto-login ends in the same state as a manual login with them typed in; its events are the store reads followed by the manual login's events with every save removed |
| `Login.LoginViewModel.constructor` | app/src/main/java/com/glowstudio/android/blindsjn/feature/login/LoginViewModel.kt:14-28 | the state starts at every field's default, with no callback and no events |
| `Login.LoginViewModel.SetOnLoginSuccess` | app/src/main/java/com/glowstudio/android/blindsjn/feature/login/LoginViewModel.kt:35-37 | a callback is registered; state and log are unchanged |
| `Login.LoginViewModel.UpdatePhoneNumber` | app/src/main/java/com/glowstudio/android/blindsjn/feature/login/LoginViewModel.kt:46-50 | only the phone number changes, to the input's digits in input order |
| `Login.LoginViewModel.UpdatePassword` | app/src/main/java/com/glowstudio/android/blindsjn/feature/login/LoginViewModel.kt:57-59 | only the password changes, to the input verbatim |
| `Login.LoginViewModel.UpdateAutoLogin` | app/src/main/java/com/glowstudio/android/blindsjn/feature/login/LoginViewModel.kt:66-68 | only the auto-login flag changes |
| `Login.LoginViewModel.DismissEmptyFieldsPopup` | app/src/main/java/com/glowstudio/android/blindsjn/feature/login/LoginViewModel.kt:157-159 | only the empty-fields popup changes, to false |
| `Login.LoginViewModel.DismissInvalidCredentialsPopup` | app/src/main/java/com/glowstudio/android/blindsjn/feature/login/LoginViewModel.kt:164-166 | only the invalid-credentials popup changes, to false |
| `Login.LoginViewModel.DismissNetworkErrorPopup` | app/src/main/java/com/glowstudio/android/blindsjn/feature/login/LoginViewModel.kt:171-173 | only the network popup changes, to false |
| `Login.LoginViewModel.Login` | app/src/main/java/com/glowstudio/android/blindsjn/feature/login/LoginViewModel.kt:117-152 | the new state and the events appended to the log are those of `LoginEffect` |
| `Login.LoginViewModel.CheckAutoLogin` | app/src/main/java/com/glowstudio/android/blindsjn/feature/login/LoginViewModel.kt:76-108 | the new state and the events appended to the log are those of `AutoLoginEffect` |
| `Decimal.IntToDecimal` | app/src/main/java/com/glowstudio/android/blindsjn/feature/board/viewmodel/PostViewModel.kt:164 | `Int.toString()` is non-empty and starts with a minus sign iff the number is negative |
| `Decimal.ParseIntToDecimal` | app/src/main/java/com/glowstudio/android/blindsjn/feature/board/viewmodel/PostViewModel.kt:164 | parsing the printed integer gives the integer back |
| `Decimal.IntToDecimalInjective` | app/src/main/java/com/glowstudio/android/blindsjn/feature/board/viewmodel/PostViewModel.kt:164 | different integers print differently |
| `Posts.Inc32` | app/src/main/java/com/glowstudio/android/blindsjn/feature/board/viewmodel/PostViewModel.kt:116 | `likeCount + 1` is two's-complement 32-bit addition, which is plain +1 below the maximum |
| `Posts.ReportMessage` | app/src/main/java/com/glowstudio/android/blindsjn/feature/board/viewmodel/PostViewModel.kt:153-168 | the six-way outcome-to-text mapping: the server message or "신고가 접수되었습니다."; the server error or "신고 접수 실패"; "서버 응답이 비어있습니다." for an empty body; "서버 오류: " followed by the status code; "신고 중 오류 발생: " followed by the exception message |
| `Posts.ServerErrorNamesCode` | app/src/main/java/com/glowstudio/android/blindsjn/feature/board/viewmodel/PostViewModel.kt:164 | two server-error results are equal only for equal status codes |
| `Posts.ReportDefaultsDistinct` | app/src/main/java/com/glowstudio/android/blindsjn/feature/board/viewmodel/PostViewModel.kt:154-162 | without server text, the accepted, refused and empty-body results are pairwise different |
| `Posts.IncrementLikes` | app/src/main/java/com/glowstudio/android/blindsjn/feature/board/viewmodel/PostViewModel.kt:113-121 | the list keeps its length, order and every field except the like count; a post's count goes up by one (32-bit) iff its id matches |
| `Posts.IncrementLikesTotal` | app/src/main/java/com/glowstudio/android/blindsjn/feature/board/viewmodel/PostViewModel.kt:113-121 | unless a counter is at the maximum, the total of like counts grows by exactly the number of posts with that id |
| `Posts.IncrementLikesAbsent` | app/src/main/java/com/glowstudio/android/blindsjn/feature/board/viewmodel/PostViewModel.kt:113-121 | an id no post carries leaves the list identical |
| `Posts.ToggleLikeResult` | app/src/main/java/com/glowstudio/android/blindsjn/feature/board/viewmodel/PostViewModel.kt:128-146 | the callback reports success iff the like request succeeded and the re-fetch did not throw; on failure it reports the selected post's like state and count (or false and 0); on success, the fetched post's values (or false and 0 when no body came back) |
| `Posts.ToggleLikeFailureKeepsLastKnown` | app/src/main/java/com/glowstudio/android/blindsjn/feature/board/viewmodel/PostViewModel.kt:139-144 | a failed toggle with a selected post reports that post's own values, not the defaults |
| `Posts.PostViewModel.constructor` | app/src/main/java/com/glowstudio/android/blindsjn/feature/board/viewmodel/PostViewModel.kt:12-22 | the view-model starts with an empty list, no selection, no status and no report result |
| `Posts.PostViewModel.SetStatusMessage` | app/src/main/java/com/glowstudio/android/blindsjn/feature/board/viewmodel/PostViewModel.kt:24-26 | the status message becomes the given text |
| `Posts.PostViewModel.LoadPosts` | app/src/main/java/com/glowstudio/android/blindsjn/feature/board/viewmodel/PostViewModel.kt:28-43 | a body replaces the list wholesale; a 2xx answer without a body changes nothing; a failure or exception keeps the list and sets the status message; the selection and the report result never change |
| `Posts.PostViewModel.LoadPostById` | app/src/main/java/com/glowstudio/android/blindsjn/feature/board/viewmodel/PostViewModel.kt:45-60 | a body becomes the selected post; a failure or exception keeps the selection and sets the status message |
| `Posts.PostViewModel.SavePost` | app/src/main/java/com/glowstudio/android/blindsjn/feature/board/viewmodel/PostViewModel.kt:62-77 | a 2xx answer sets the status to the body's message (absent without a body) and launches a list reload; a failure sets the status message and launches nothing; list and selection never change |
| `Posts.PostViewModel.EditPost` | app/src/main/java/com/glowstudio/android/blindsjn/feature/board/viewmodel/PostViewModel.kt:79-94 | a 2xx answer sets the status to the body's message and launches a reload of that post only; a failure sets the status message and launches nothing |
| `Posts.PostViewModel.DeletePost` | app/src/main/java/com/glowstudio/android/blindsjn/feature/board/viewmodel/PostViewModel.kt:96-111 | a 2xx answer sets the status to the body's message and launches a list reload; a failure sets the status message and launches nothing |
| `Posts.PostViewModel.IncrementLike` | app/src/main/java/com/glowstudio/android/blindsjn/feature/board/viewmodel/PostViewModel.kt:113-121 | the list becomes `IncrementLikes` of the old list, with no request sent |
| `Posts.PostViewModel.DecrementLike` | app/src/main/java/com/glowstudio/android/blindsjn/feature/board/viewmodel/PostViewModel.kt:123-126 | nothing changes |
| `Posts.PostViewModel.ToggleLike` | app/src/main/java/com/glowstudio/android/blindsjn/feature/board/viewmodel/PostViewModel.kt:128-146 | the callback arguments are `ToggleLikeResult` of the selected post and the two answers; no field changes; on success the two reloads are launched, not awaited |
| `Posts.PostViewModel.ReportPost` | app/src/main/java/com/glowstudio/android/blindsjn/feature/board/viewmodel/PostViewModel.kt:148-170 | only the report result changes, to `ReportMessage` of the answer |
| `Posts.PostViewModel.ClearReportResult` | app/src/main/java/com/glowstudio/android/blindsjn/feature/board/viewmodel/PostViewModel.kt:172-174 | the report result is absent afterwards, whatever it was before |
| `TagSheet.ToggleSelection` | app/src/main/java/com/glowstudio/android/blindsjn/feature/board/viewmodel/PostBottomSheetViewModel.kt:31-38 | a tag that is not enabled leaves the selection unchanged; an enabled tag is in the new selection iff it was not in the old; no other tag is touched |
| `TagSheet.ToggleTwice` | app/src/main/java/com/glowstudio/android/blindsjn/feature/board/viewmodel/PostBottomSheetViewModel.kt:31-38 | toggling the same tag twice restores the selection |
| `TagSheet.ToggleStaysWithin` | app/src/main/java/com/glowstudio/android/blindsjn/feature/board/viewmodel/PostBottomSheetViewModel.kt:31-38 | toggling keeps the selection within the enabled tags |
| `TagSheet.InitialEnabledAreTags` | app/src/main/java/com/glowstudio/android/blindsjn/feature/board/viewmodel/PostBottomSheetViewModel.kt:10-27 | the initial enabled tags are the first seven of the nine initial tags, so each is also a tag |
| `TagSheet.PostBottomSheetViewModel.constructor` | app/src/main/java/com/glowstudio/android/blindsjn/feature/board/viewmodel/PostBottomSheetViewModel.kt:10-27 | the initial lists are the source's constants; the selection starts empty and within the enabled tags |
| `TagSheet.PostBottomSheetViewModel.ToggleTag` | app/src/main/java/com/glowstudio/android/blindsjn/feature/board/viewmodel/PostBottomSheetViewModel.kt:31-38 | the selection becomes `ToggleSelection` of the old one; only the selection changes; the subset invariant is preserved |
| `TagSheet.PostBottomSheetViewModel.ClearSelection` | app/src/main/java/com/glowstudio/android/blindsjn/feature/board/viewmodel/PostBottomSheetViewModel.kt:40-42 | the selection becomes empty; only the selection changes |
| `TagSheet.PostBottomSheetViewModel.SetTags` | app/src/main/java/com/glowstudio/android/blindsjn/feature/board/viewmodel/PostBottomSheetViewModel.kt:44-48 | both lists are replaced by the arguments and the selection becomes empty |
| `TopBar.MainBarState` | app/src/main/java/com/glowstudio/android/blindsjn/feature/main/viewmodel/TopBarViewModel.kt:45-53 | the main bar is the default record with search, more and notification shown, so its title is empty and its back button hidden |
| `TopBar.DetailBarState` | app/src/main/java/com/glowstudio/android/blindsjn/feature/main/viewmodel/TopBarViewModel.kt:65-74 | the detail bar is the default record with type DETAIL and the given title and three flags; the notification button is always hidden |
| `TopBar.TopBarViewModel.constructor` | app/src/main/java/com/glowstudio/android/blindsjn/feature/main/viewmodel/TopBarViewModel.kt:16-33 | the state starts at every field's default |
| `TopBar.TopBarViewModel.UpdateState` | app/src/main/java/com/glowstudio/android/blindsjn/feature/main/viewmodel/TopBarViewModel.kt:36-38 | the state becomes exactly the given record |
| `TopBar.TopBarViewModel.SetMainBar` | app/src/main/java/com/glowstudio/android/blindsjn/feature/main/viewmodel/TopBarViewModel.kt:40-54 | the state becomes the main bar, whatever it was before |
| `TopBar.TopBarViewModel.SetDetailBar` | app/src/main/java/com/glowstudio/android/blindsjn/feature/main/viewmodel/TopBarViewModel.kt:56-75 | the state becomes the detail bar for the title and flags, each flag `true` unless given, whatever it was before |
| `NewsDetail.NoContentIsNotBlank` | app/src/main/java/com/glowstudio/android/blindsjn/ui/screens/NewsDetailScreen.kt:75 | the default text "내용이 없습니다." is not blank |
| `NewsDetail.BodyText` | app/src/main/java/com/glowstudio/android/blindsjn/ui/screens/NewsDetailScreen.kt:71-76 | the body text is never blank, and it is the content whenever the content is present and not blank |
| `NewsDetail.FirstNonBlank` | app/src/main/java/com/glowstudio/android/blindsjn/ui/screens/NewsDetailScreen.kt:71-76 | a priority choice returns the fallback or one of the candidates, and is non-blank when the fallback is |
| `NewsDetail.FirstNonBlankIsEarliest` | app/src/main/java/com/glowstudio/android/blindsjn/ui/screens/NewsDetailScreen.kt:71-76 | the choice is the first candidate that is present and non-blank, when one exists |
| `NewsDetail.FirstNonBlankFallback` | app/src/main/java/com/glowstudio/android/blindsjn/ui/screens/NewsDetailScreen.kt:75 | when every candidate is absent or blank, the fallback is chosen |
| `NewsDetail.BodyTextPriority` | app/src/main/java/com/glowstudio/android/blindsjn/ui/screens/NewsDetailScreen.kt:71-76 | the body text is the first usable one of content, description and link, else "내용이 없습니다." |
| `NewsDetail.IsWhitespace` | app/src/main/java/com/glowstudio/android/blindsjn/ui/screens/NewsDetailScreen.kt:72-74 | `Char.isWhitespace()` accepts a character iff `Character.isWhitespace` or `Character.isSpaceChar` does, so the non-breaking spaces count as whitespace |
| `NewsDetail.IsBlank` | app/src/main/java/com/glowstudio/android/blindsjn/ui/screens/NewsDetailScreen.kt:72-74 | a string is blank iff every character is whitespace; the empty string is blank |
| `NewsDetail.IsNullOrBlank` | app/src/main/java/com/glowstudio/android/blindsjn/ui/screens/NewsDetailScreen.kt:72-74 | a nullable string is null-or-blank iff it is absent or every character is whitespace |
| `NewsDetail.ShowImage` | app/src/main/java/com/glowstudio/android/blindsjn/ui/screens/NewsDetailScreen.kt:51 | the image is shown iff its URL is present and holds a character that is not whitespace |
| `NewsDetail.ShowFullArticleButton` | app/src/main/java/com/glowstudio/android/blindsjn/ui/screens/NewsDetailScreen.kt:86 | the full-article button is shown iff the link is present and holds a character that is not whitespace |
| `NewsDetail.HiddenLinkIsNotBody` | app/src/main/java/com/glowstudio/android/blindsjn/ui/screens/NewsDetailScreen.kt:74-86 | when the button is hidden, the body is what it would be with no link at all |
| `NewsDetail.LinkAsBody` | app/src/main/java/com/glowstudio/android/blindsjn/ui/screens/NewsDetailScreen.kt:74 | with content and description unusable and the button shown, the body is the link |

## Left out

- Coroutine scheduling, interleaving and cancellation are not modelled. Each launched body is one atomic step, so the lost-update races between concurrent loads are not modelled.
- A consequence of atomic steps: `isLoading` is never observed true between operations. The loading guard of `login` is modelled over arbitrary states, but only an interleaving, which is left out, could reach it.
- The reloads that `savePost`, `deletePost`, `editPost` and `toggleLike` launch are recorded as launched jobs. They are not executed inside the launching method.
- `PostRepository`, `AuthRepository`, `AutoLoginManager` and `isNetworkAvailable` are not part of this model. Their answers are parameters, and their calls are events in a ghost log.
- The top-level `login` wrapper in `LoginScreen.kt` is absorbed into the gateway outcome `Accepted`/`Rejected`/`Failed`.
- Exceptions raised by `saveLoginInfo` or by the success callback are not modelled. In the source they would fall into the same `catch` and raise the invalid-credentials popup.
- An exception thrown by `toggleLike`'s own `onResult(true, …)` call inside the `try` falls into the `catch`, which calls `onResult(false, …)` a second time (`PostViewModel.kt:138`, `:143`). The callback is a closure of the screen, so the model does not show this double call.
- The success callback's body is a closure of the screen. The model records only whether one is set and that it was invoked with `true`.
- `Login.IsDigit` accepts only the ASCII digits `0`–`9`. Kotlin's `isDigit` accepts every Unicode decimal digit.
- JVM strings are UTF-16 code units; Dafny strings here are sequences of Unicode scalar values.
- Exception and HTTP messages (`e.message`, `response.message()`) are opaque strings. A null exception message, which Kotlin prints as `null`, is one such string.
- `Response.Ok` stands for any 2xx status, whose exact code the view-model never reads. A non-2xx response has no body, as Retrofit's `body()` gives.
- The board's data classes (`Post`, the response and request classes) are not part of this model. `Post` keeps only the fields the view-model touches or that identify a post: id, title, content, like count and liked flag. A detail response's `data` is taken to be present whenever its body is.
- `HtmlCompat.fromHtml` and the browser `Intent` of `NewsDetailScreen.kt` are not modelled; only the choice of text and the two visibility conditions are.
- The click-handler fields of `TopBarState` are closures and are not modelled.
- The login screen layout, the common components, the category sheet, the shortcut routes, the navigation graph, the section layout, the time picker, and the management and popular screens are pure presentation.
- `FoodCostDashboardScreen.kt` is not modelled: its whole body is commented out.
- `AddScheduleScreen.kt` is not modelled: it holds dialog flags and a `java.time` date conversion in the system time zone.
- `BasicResponse.kt` holds no behaviour.
- "At most one popup" is not claimed: the popups are independent booleans and can be raised together.
