# Social feed demo: the state handlers, modelled in Dafny

The repository is a client-side social-network demo (feed, chat, groups, profile wizard)
whose components keep their state in local React `useState` cells. This project models the
handlers that change those cells, one module per component, and proves what they do.

- `AnimatedPost` (`src/components/AnimatedPost.tsx`): the viewer's reaction (`null` or one of
  the five names of the reaction table) and the `likeCount` it drives; the floating emojis
  each reaction appends and each timer removes by identity; the prepend-only comment thread
  and its input box; the main heart button; the displayed comment count.
- `Post` (`src/components/Post.tsx`): the plain like toggle over `isLiked` and `likeCount`.
- `Home` (`src/pages/Home.tsx`): publishing a post in front of the feed.
- `Groups` (`src/pages/Groups.tsx`): the create-group form and the case-insensitive search.
- `Chat` (`src/pages/Chat.tsx`): sending a message, the Enter-key rule, choosing a conversation.
- `ProfileCreation` (`src/pages/ProfileCreation.tsx`): the bounded step counter, the named-field
  update of the profile and the step-2 Continue guard.
- Helpers: `Optional` (the `null`-or-value cell), `Lists` (`Array.prototype.filter` and the
  order-preserving subsequence relation), `Text` (`trim` over the ECMAScript whitespace and
  line-terminator characters, ASCII `toLowerCase`, `includes`).

Each component is a class whose fields are its state cells and whose methods are its
handlers. Every method's postcondition gives the whole new state as a pure step function of
the old one (`Select`, `Emit`, `Expire`, `AddComment`, `Toggle`, `Publish`, `CreateGroup`,
`Send`, `KeyPress`, `Set`, `NextStep`, …), and lemmas state the promised properties of those
functions. Clock readings (`Date.now()` ids, the formatted chat time) and the random emoji
position are parameters of the handlers. Props that a component never changes (`likes`,
`comments`, `shares`) are `const` fields, so no click can change the counts the Post card
shows for comments and shares.

Where the code and the component's design description differ, the model follows the code:

- Toggling a reaction off still spawns a floating emoji (`AnimatedPost.tsx:70-79` runs for
  every name in the table). The design description says it spawns none.
- Emoji identities come from `Date.now()`, so two entries can share one. The design
  description calls them unique. Expiry removes every entry with the identity
  (`ExpireKeepsOthers`), and nothing assumes the identities are unique.
- The heart button clears a set reaction without taking the like back
  (`HeartClearsWithoutDecrement`). After that, the counter no longer equals `likes` plus the
  reaction, so the design's invariant holds only while the picker alone is used
  (`SelectAllConsistent`).
- The displayed comment count includes the two mock comments every card seeds
  (`FreshCardCommentCount`).
- The design description walks through a post with 24 likes: `love`, `love` again, then
  `like`, and expects the counter to stay at 24. In the code the toggle-off leaves no reaction
  set, so `like` adds one and the counter is 25 (`SeededPostScenario`). Its comment example
  expects 9 after one comment on a post with 8. The code shows 11, because the two mock
  comments count too (`NiceCommentScenario`).
- `handleReaction` takes any string. A name outside the table still becomes the reaction and
  moves the counter, but spawns no emoji (`EmitUnknownName`). JavaScript truthiness decides
  the heart button, so `IsTruthy` treats an empty reaction name like `null`.

## Model

| member | source | states |
|---|---|---|
| `AnimatedPost.FindIn` | src/components/AnimatedPost.tsx:70 | the lookup finds a row carrying the name exactly when some row carries it |
| `AnimatedPost.FindInFirst` | src/components/AnimatedPost.tsx:70 | the row found is the first one carrying the name |
| `AnimatedPost.ReactionNamesDistinct` | src/components/AnimatedPost.tsx:24-30 | the five names of the reaction table are pairwise different |
| `AnimatedPost.FindReactionAt` | src/components/AnimatedPost.tsx:24-30 | every name of the table finds its own row, so its own emoji |
| `AnimatedPost.SelectFromNone` | src/components/AnimatedPost.tsx:57-61 | from no reaction, choosing `k` sets the reaction to `k` and adds exactly one like |
| `AnimatedPost.SelectActive` | src/components/AnimatedPost.tsx:58-63 | choosing the active reaction clears it and takes exactly one like away |
| `AnimatedPost.SelectOther` | src/components/AnimatedPost.tsx:58-65 | choosing another reaction while one is set switches to it and leaves the counter unchanged |
| `AnimatedPost.SelectTwiceRestores` | src/components/AnimatedPost.tsx:56-66 | choosing the same reaction twice from no reaction restores reaction and counter exactly |
| `AnimatedPost.SelectConsistent` | src/components/AnimatedPost.tsx:56-66 | one selection keeps `likeCount == likes + (reaction set ? 1 : 0)` |
| `AnimatedPost.SelectAllConsistent` | src/components/AnimatedPost.tsx:33-66 | after any sequence of selections, `likeCount == likes + (reaction set ? 1 : 0)` |
| `AnimatedPost.SeededPostScenario` | src/components/AnimatedPost.tsx:56-66 | from 24 likes: `love` gives 25, `love` again 24, then `like` 25; `love` then `like` stays at 25 |
| `AnimatedPost.HeartWithoutReaction` | src/components/AnimatedPost.tsx:161 | with no reaction, the heart button is the same as choosing `'love'` |
| `AnimatedPost.HeartClearsWithoutDecrement` | src/components/AnimatedPost.tsx:161 | with a reaction set, the heart button clears it, keeps the counter, and breaks the counter invariant |
| `AnimatedPost.LoveThenHeartKeepsTheLike` | src/components/AnimatedPost.tsx:161 | choosing `'love'` and then clicking the heart leaves no reaction but one like more than before |
| `AnimatedPost.Expire` | src/components/AnimatedPost.tsx:81-83 | after expiry an entry is present exactly when it was present and its identity differs |
| `AnimatedPost.EmitTableReaction` | src/components/AnimatedPost.tsx:70-79 | a table reaction appends exactly one entry at the end with its emoji and the given identity and position, including when it toggles off |
| `AnimatedPost.EmitUnknownName` | src/components/AnimatedPost.tsx:70-71 | a name outside the table appends nothing |
| `AnimatedPost.ExpireKeepsOthers` | src/components/AnimatedPost.tsx:82 | expiry keeps all other entries as an order-preserving subsequence with their multiplicities, and removes every entry with the identity |
| `AnimatedPost.ExpireIdempotent` | src/components/AnimatedPost.tsx:82 | expiring the same identity twice equals expiring it once |
| `AnimatedPost.ExpireOwnEntry` | src/components/AnimatedPost.tsx:72-83 | when its timer fires, a just-emitted entry is gone and the rest is as if it had never been added |
| `AnimatedPost.ExpireOtherEntry` | src/components/AnimatedPost.tsx:72-83 | another identity's timer leaves a just-emitted entry in place at the end: entries expire independently |
| `AnimatedPost.AddBlankComment` | src/components/AnimatedPost.tsx:88 | blank or whitespace-only input leaves thread and input unchanged |
| `AnimatedPost.AddNonBlankComment` | src/components/AnimatedPost.tsx:87-99 | other input prepends one comment by `'You'`, timestamp `'now'`, with the untrimmed text, keeps the old thread behind it and clears the input |
| `AnimatedPost.AddCommentCount` | src/components/AnimatedPost.tsx:204 | the displayed count `comments + postComments.length` rises by one exactly when the input is not blank |
| `AnimatedPost.FreshCardCommentCount` | src/components/AnimatedPost.tsx:38-53 | a fresh card shows `comments + 2`, the two mock comments included |
| `AnimatedPost.NiceCommentScenario` | src/components/AnimatedPost.tsx:87-99 | with 8 seeded comments the button shows 10; adding `"Nice!"` puts the viewer's comment in front and shows 11 |
| `AnimatedPost.AnimatedPostCard.constructor` | src/components/AnimatedPost.tsx:33-54 | first render: no reaction, counter at `likes`, picker and thread hidden, the two mock comments, empty input, no emojis |
| `AnimatedPost.AnimatedPostCard.HandleReaction` | src/components/AnimatedPost.tsx:56-85 | reaction and counter follow `Select`, the counter invariant is preserved, the picker closes, the emoji list follows `Emit`, comments untouched |
| `AnimatedPost.AnimatedPostCard.UpdateReaction` | src/components/AnimatedPost.tsx:57-66 | the reaction and counter cells follow `Select` and keep the counter invariant; no other cell changes |
| `AnimatedPost.AnimatedPostCard.SpawnEmoji` | src/components/AnimatedPost.tsx:70-79 | the emoji list follows `Emit` (one entry for a name in the table, none otherwise); no other cell changes |
| `AnimatedPost.AnimatedPostCard.ClickHeart` | src/components/AnimatedPost.tsx:161 | with no (truthy) reaction acts as `handleReaction('love')`; otherwise only clears the reaction |
| `AnimatedPost.AnimatedPostCard.ExpireEmoji` | src/components/AnimatedPost.tsx:81-83 | the emoji list follows `Expire`; nothing else changes |
| `AnimatedPost.AnimatedPostCard.ToggleComments` | src/components/AnimatedPost.tsx:200 | the comment section's visibility flips; nothing else changes |
| `AnimatedPost.AnimatedPostCard.SetNewComment` | src/components/AnimatedPost.tsx:230 | the input takes the typed text; nothing else changes |
| `AnimatedPost.AnimatedPostCard.HandleAddComment` | src/components/AnimatedPost.tsx:87-99 | thread and input follow `AddComment`; the reaction cells and the emoji list are unchanged |
| `AnimatedPost.AnimatedPostCard.CommentKeyPress` | src/components/AnimatedPost.tsx:231 | Enter in the comment box adds the comment; other keys change nothing |
| `Post.ToggleTwice` | src/components/Post.tsx:27-30 | two consecutive clicks restore both `isLiked` and `likeCount` |
| `Post.ToggleTimesConsistent` | src/components/Post.tsx:24-30 | after any number of clicks `likeCount == likes + (isLiked ? 1 : 0)` and `likeCount >= likes` |
| `Post.ToggleTimesParity` | src/components/Post.tsx:28 | each click flips `isLiked`: after `n` clicks it is back exactly when `n` is even |
| `Post.PostCard.constructor` | src/components/Post.tsx:23-25 | not liked, counter at `likes`, the invariant holds; the props are fixed |
| `Post.PostCard.HandleLike` | src/components/Post.tsx:27-30 | flips `isLiked`, moves the counter as `Toggle` says, keeps the invariant and `likeCount >= likes` |
| `Home.PublishBlank` | src/pages/Home.tsx:56-57 | posting blank or whitespace-only text leaves posts and input unchanged |
| `Home.PublishNonBlank` | src/pages/Home.tsx:56-74 | non-blank text prepends exactly one post (untrimmed content, author `'You'`/`'you'`, `'now'`, zero counts), the old posts follow in order, the input is cleared |
| `Home.HomeFeed.constructor` | src/pages/Home.tsx:11-54 | the feed starts with the three mock posts and an empty input |
| `Home.HomeFeed.SetNewPost` | src/pages/Home.tsx:100 | the input takes the typed text; the feed is unchanged |
| `Home.HomeFeed.HandlePost` | src/pages/Home.tsx:56-74 | posts and input follow `Publish`: unchanged for blank text, otherwise new post in front and input cleared |
| `Groups.WithField` | src/pages/Groups.tsx:144-173 | an input's change sets that one form field and keeps the other three |
| `Groups.CreateGroupNeedsBoth` | src/pages/Groups.tsx:73 | creation changes anything exactly when name and description are both non-empty (untrimmed) |
| `Groups.CreateGroupPrepends` | src/pages/Groups.tsx:72-87 | success prepends one group copied from the form with 1 member, 0 posts, joined, keeps the others in order, resets the form to `'public'` and closes the panel |
| `Groups.FilteredGroups` | src/pages/Groups.tsx:89-92 | the listed groups are an order-preserving subsequence, and a group is listed exactly when it matches |
| `Groups.MatchesIff` | src/pages/Groups.tsx:89-92 | a group matches exactly when its lowercased name or category contains the lowercased query as a slice |
| `Groups.EmptyQueryListsAll` | src/pages/Groups.tsx:89-92 | an empty query lists every group, in order |
| `Groups.GroupsPage.Visible` | src/pages/Groups.tsx:89-92 | the page lists exactly the groups matching the current query |
| `Groups.GroupsPage.constructor` | src/pages/Groups.tsx:11-70 | four mock groups, empty form with privacy `'public'`, panel closed, empty query |
| `Groups.GroupsPage.SetShowCreateGroup` | src/pages/Groups.tsx:115 | opening or closing the panel changes only that flag |
| `Groups.GroupsPage.SetSearchQuery` | src/pages/Groups.tsx:110 | typing a query changes only the query |
| `Groups.GroupsPage.SetFormField` | src/pages/Groups.tsx:144-173 | a form input changes only its field of the form |
| `Groups.GroupsPage.HandleCreateGroup` | src/pages/Groups.tsx:72-87 | groups, form and panel follow `CreateGroup` |
| `Chat.SendBlank` | src/pages/Chat.tsx:97 | sending blank or whitespace-only text leaves messages and input unchanged |
| `Chat.SendNonBlank` | src/pages/Chat.tsx:96-109 | non-blank text appends exactly one own message from `'You'` with the untrimmed content, the earlier messages are an unchanged prefix, the input is cleared |
| `Chat.KeyPressRule` | src/pages/Chat.tsx:111-116 | Enter without Shift sends; Shift+Enter and any other key change nothing |
| `Chat.ChatPage.constructor` | src/pages/Chat.tsx:10-46 | four mock messages, empty input, `'Sarah Johnson'` active |
| `Chat.ChatPage.SetNewMessage` | src/pages/Chat.tsx:237 | the input takes the typed text; messages and active chat unchanged |
| `Chat.ChatPage.HandleSendMessage` | src/pages/Chat.tsx:96-109 | messages and input follow `Send`; the active chat is unchanged |
| `Chat.ChatPage.HandleKeyPress` | src/pages/Chat.tsx:111-116 | messages and input follow `KeyPress` |
| `Chat.ChatPage.SelectConversation` | src/pages/Chat.tsx:138 | the active chat becomes the clicked conversation's name; messages untouched |
| `ProfileCreation.Set` | src/pages/ProfileCreation.tsx:23-28 | the named field takes the value and every other field, the avatar included, is unchanged |
| `ProfileCreation.StepsStayInRange` | src/pages/ProfileCreation.tsx:43-49 | next and previous keep the step in 1..3; next at 3 and previous at 1 do nothing |
| `ProfileCreation.NextThenPrevious` | src/pages/ProfileCreation.tsx:43-49 | from step 1 or 2, next then previous returns to the same step |
| `ProfileCreation.RunStaysInRange` | src/pages/ProfileCreation.tsx:20-49 | from a step in 1..3, any sequence of next and previous stays in 1..3 |
| `ProfileCreation.ProfileWizard.constructor` | src/pages/ProfileCreation.tsx:11-20 | the wizard starts at step 1 with an empty profile |
| `ProfileCreation.ProfileWizard.HandleNext` | src/pages/ProfileCreation.tsx:43-45 | the step advances only below 3; the range invariant holds; the profile is unchanged |
| `ProfileCreation.ProfileWizard.HandlePrevious` | src/pages/ProfileCreation.tsx:47-49 | the step goes back only above 1; the range invariant holds; the profile is unchanged |
| `ProfileCreation.ProfileWizard.HandleInputChange` | src/pages/ProfileCreation.tsx:23-28 | the profile follows `Set`; the step is unchanged |
| `ProfileCreation.ProfileWizard.ContinueFromBasicInfo` | src/pages/ProfileCreation.tsx:229 | on step 2, Continue advances to 3 exactly when display name and username are both non-empty |
| `Text.TrimStart` | src/components/AnimatedPost.tsx:88 | the result is a suffix of the input, everything removed is whitespace, and it does not start with whitespace |
| `Text.TrimEnd` | src/components/AnimatedPost.tsx:88 | the result is a prefix of the input, everything removed is whitespace, and it does not end with whitespace |
| `Text.TrimShape` | src/components/AnimatedPost.tsx:88 | `trim()` is a slice with only whitespace outside it and no whitespace at either end |
| `Text.TrimEmptyIffBlank` | src/components/AnimatedPost.tsx:88 | the guard `if (s.trim())` fails exactly when `s` is empty or whitespace-only |
| `Text.ToLower` | src/pages/Groups.tsx:90-91 | the result has the input's length and each character folded to ASCII lower case |
| `Text.ContainsIff` | src/pages/Groups.tsx:90-91 | `s.includes(t)` holds exactly when `t` is a slice of `s` |
| `Text.ContainsEmpty` | src/pages/Groups.tsx:90-91 | every string includes the empty string |
| `Lists.Filter` | src/pages/Groups.tsx:89 | `filter` keeps exactly the elements that pass, and never lengthens the list |
| `Lists.FilterSubsequence` | src/pages/Groups.tsx:89 | what `filter` keeps is an order-preserving subsequence of its input |
| `Lists.FilterCount` | src/components/AnimatedPost.tsx:82 | each passing element keeps its multiplicity and each failing one is gone |
| `Lists.FilterAll` | src/pages/Groups.tsx:89 | when every element passes, `filter` returns the list itself |
| `Lists.FilterAppend` | src/components/AnimatedPost.tsx:82 | `filter` distributes over concatenation |
| `Lists.FilterIdempotent` | src/components/AnimatedPost.tsx:82 | filtering twice by one predicate equals filtering once |

## Left out

- Rendering: JSX, CSS classes, icons, colours, the keyframe animation and the progress-bar
  width of the wizard. These are presentation, and the width is a floating-point value.
- The random emoji position: `x` and `y` are parameters, taken as they come.
- The two-second `setTimeout`: the timer is the explicit `ExpireEmoji(id)` call, which the
  environment makes when the timer fires. When that happens is not modelled.
- `Date.now()` ids and `toLocaleTimeString`: both are parameters. The locale and the clock
  are not modelled.
- The hover show and hide of the reaction picker. The model only records that a selection
  closes it (`showReactions` is false after `HandleReaction`).
- `scrollIntoView` in the chat, `e.preventDefault()` on Enter, the `FileReader` avatar
  upload and the avatar preview, and the `console.log` finish button of the wizard. These
  are DOM calls or I/O.
- Text.ToLower: folds ASCII letters only. Unicode case mapping is not modelled.
- ProfileCreation.Set: covers the six input names wired to `handleInputChange`. A computed
  key outside them would add a new property, and no input carries such a name.
- The Login and Settings pages and the Navigation component: they hold only single-flag
  toggles, a field setter, route highlighting and a logging submit, with no behaviour
  worth stating.
