# Cyberpunk portfolio site: a verified model of its interactive core

The site is a single-page React portfolio. Most of it is static markup. The
stateful and computational parts are modelled here: the command terminal, the
ember canvas in the hero banner, the animated cyber grid with its falling motes,
the loading screen's progress bar and typewriter, the system-status widget, the
project image carousel, the tech-stack category filter, the glitch-text effect,
and the bundler's `manualChunks` rule.

Each component is one Dafny module:

- **Pure helpers** become functions with contracts: the command dispatcher,
  `createParticle`, `getHealthStatus`, the carousel arithmetic, `manualChunks`,
  the filter and `createGlitchText`.
- **State that the source mutates in place** becomes a class:
  - the terminal's React state;
  - the mutable particle arrays of the two canvases;
  - the typewriter's closure variables;
  - the four status metrics.
- **Particle arrays** become a `seq` field. The source's backward `splice` loop is
  kept as a `for i := |ps| downto 0` loop and proved equal to a specification,
  the pure `Kept(Mapped(...))` of `Buffers`.
- **Every `Math.random()` draw** is a parameter of type `Draw.Unit`, a real in
  `[0, 1)`. `Math.floor(r * n)` is `Draw.Below`.
- **Clock readings** are parameters: the frame timestamps and the `date` text.

Supporting modules:

- `Wrappers` defines `Option` and `Result`.
- `Arith` holds small facts about multiplication, division and remainders.
- `Text` models the JavaScript string operations the components use, with a
  string as a sequence of Unicode scalar values: ASCII `toLowerCase`/`toUpperCase`,
  `trim`, `startsWith`, `indexOf`, `includes`, and `split` on a non-empty
  separator.

Two behaviours of the source are modelled as written and pinned down by lemmas:

- **The terminal's `echo`** prints `cmd.substring(5)` of the raw command. The
  command is neither lowercased nor trimmed first, so leading white space shifts
  the echoed text (`Terminal.EchoWithLeadingSpace`).
- **The grid's `animate` prop has no effect.** The frame callback is also named
  `animate` and shadows the prop, so the guards read a function, which is always
  truthy, and the loop always runs (`CyberGrid.AnimatePropIgnored`).

## Model

| member | source | states |
|---|---|---|
| Draw.Below | src/components/GlitchText.tsx:29 | `Math.floor(Math.random() * n)` is an index in `[0, n)`, for every draw |
| Text.Lower | src/components/InteractiveTerminal.tsx:41 | lowercasing keeps the length and maps each character through the ASCII letter mapping |
| Text.LeadIsSpace | src/components/InteractiveTerminal.tsx:41 | the leading run that `trim` removes is all white space and is followed by a non-space |
| Text.TrailIsSpace | src/components/InteractiveTerminal.tsx:41 | the trailing run that `trim` removes is all white space and is preceded by a non-space |
| Text.TrimEmptyIff | src/components/InteractiveTerminal.tsx:183 | `trim()` is empty exactly when every character is white space, which is the submit guard's condition |
| Text.TrimEnds | src/components/InteractiveTerminal.tsx:41 | a non-empty trimmed string begins and ends with a non-space |
| Text.IndexFrom | src/components/InteractiveTerminal.tsx:113 | the search result is an occurrence at or after the start, with no occurrence between the start and it, and none at all when it reports none |
| Text.IndexOf | vite.config.ts:15 | `indexOf`/`includes` find the first occurrence, or report none when there is no occurrence anywhere |
| Text.Split | src/components/InteractiveTerminal.tsx:113 | `split` always yields at least one piece, and two or more exactly when the separator occurs |
| Text.Join | src/components/InteractiveTerminal.tsx:113 | `join` of pieces with a separator starts with the first piece; it is the reference inverse of `split` |
| Text.JoinSplit | src/components/InteractiveTerminal.tsx:113 | joining the pieces of `split(sep)` with `sep` gives back the original string |
| Text.SplitPiecesLackSeparator | src/components/InteractiveTerminal.tsx:113 | no piece of `split(sep)` contains `sep` |
| Text.FirstPieceLacksSeparator | src/components/InteractiveTerminal.tsx:113 | the first piece of a one-character split never contains that character |
| Text.SecondPieceAfterWord | src/components/InteractiveTerminal.tsx:113 | after a space-free word and a space, `split(' ')[1]` is the text up to the next space |
| Text.FirstPieceEmpty | src/components/InteractiveTerminal.tsx:113 | a string that starts with the separator splits into an empty first piece |
| Buffers.Mapped | src/components/Hero.tsx:51-54 | the per-element update steps every element exactly once, at its own index |
| Buffers.Kept | src/components/Hero.tsx:56-59 | culling never lengthens the buffer |
| Buffers.KeptMembers | src/components/Hero.tsx:56-59 | an element survives culling exactly when it was present and passes the keep test |
| Buffers.KeptAppend | src/components/Hero.tsx:50-59 | culling preserves relative order: survivors of a prefix precede survivors of the rest |
| Buffers.KeptAll | src/components/Hero.tsx:56-59 | if every element passes, culling changes nothing |
| Buffers.KeptNone | src/components/Hero.tsx:56-59 | if no element passes, culling empties the buffer |
| Buffers.PassStep | src/components/Hero.tsx:50-59 | one iteration of the backward update-and-splice loop extends the processed suffix by one element: updated in place when kept, removed when not |
| Terminal.UnknownMessage | src/components/InteractiveTerminal.tsx:172-176 | the unrecognised-command message embeds the raw command at offset 24 |
| Terminal.Dispatch | src/components/InteractiveTerminal.tsx:41-177 | the branch chain clears the screen exactly for `clear`, closes the terminal exactly for `exit`, and prints no line exactly for `clear` |
| Terminal.ProcessCommand | src/components/InteractiveTerminal.tsx:40-178 | the same three iffs, stated on the lowercased and trimmed command |
| Terminal.NavigateBranch | src/components/InteractiveTerminal.tsx:112-142 | a normalised command starting `navigate ` reaches the navigate branch, after the keywords |
| Terminal.ThemeBranch | src/components/InteractiveTerminal.tsx:145-152 | a normalised command starting `theme ` reaches the theme branch |
| Terminal.EchoBranch | src/components/InteractiveTerminal.tsx:155-158 | a normalised command starting `echo ` prints `cmd.substring(5)` |
| Terminal.KeywordIgnoresRaw | src/components/InteractiveTerminal.tsx:40-176 | on an exact keyword the raw (un-normalised) command text does not affect the answer; it is read only by `echo` and the unknown-command message |
| Terminal.KeywordsIgnoreCaseAndSpace | src/components/InteractiveTerminal.tsx:41-109 | the fixed keywords answer the same whatever the letter case and surrounding white space |
| Terminal.HelpLinesArePlain | src/components/InteractiveTerminal.tsx:44-57 | the help text is twelve lines, none flagged as an error |
| Terminal.HelpPrintsTwelveLines | src/components/InteractiveTerminal.tsx:44-59 | `help` prints exactly twelve lines, none of them an error |
| Terminal.NavigateOutcome | src/components/InteractiveTerminal.tsx:112-141 | the navigate branch prints one line. X is the text after `navigate ` up to the next space. When X is one of the six sections it prints `Navigating to X section...` and scrolls to `#X`; otherwise it prints `Unknown section: X` as an error and stays put |
| Terminal.NavigateTakesSecondToken | src/components/InteractiveTerminal.tsx:112-141 | a command that normalises to `navigate ...` reaches the navigate branch, whatever its case and padding; it prints one line, an error exactly when the token is not a known section |
| Terminal.EmptySection | src/components/InteractiveTerminal.tsx:113 | after `navigate` and two spaces the token is empty, which gives the error `Unknown section: ` |
| Terminal.NavigateDoubleSpace | src/components/InteractiveTerminal.tsx:113 | a double space after `navigate` makes the token empty, which gives the unknown-section error |
| Terminal.ThemeOutcome | src/components/InteractiveTerminal.tsx:145-151 | the theme branch prints one line and changes nothing. For one of the four colours the line is the HTML message `Terminal theme changed to X.`; for anything else it is the error listing the colours |
| Terminal.ThemeAcceptsFourColours | src/components/InteractiveTerminal.tsx:145-151 | a command that normalises to `theme ...` reaches the theme branch; it prints one line, an error exactly when the token is not one of the four colours |
| Terminal.EchoPrintsRawSuffix | src/components/InteractiveTerminal.tsx:155-157 | `echo` prints the raw command from offset 5, neither lowercased nor trimmed |
| Terminal.EchoHiNormalizes | src/components/InteractiveTerminal.tsx:41 | lowercasing and trimming ` echo hi` gives `echo hi` |
| Terminal.EchoWithLeadingSpace | src/components/InteractiveTerminal.tsx:156 | ` echo hi` echoes ` hi`: the offset is taken in the untrimmed command |
| Terminal.BareEchoIsUnknown | src/components/InteractiveTerminal.tsx:155-176 | a bare `echo` does not match the `echo ` prefix once trimmed, so it is unrecognised |
| Terminal.UnknownCommandIsOneError | src/components/InteractiveTerminal.tsx:171-177 | any other command prints exactly one error line that quotes the raw command, and has no effect |
| Terminal.SubmitAppendsOrClears | src/components/InteractiveTerminal.tsx:186-194 | applied in order, the queued output updates append `> cmd` and then the output, except for `clear`, whose reset comes after the echo and so removes that too |
| Terminal.KeyStep | src/components/InteractiveTerminal.tsx:201-220 | the history cursor stays in `[-1, len)`; ArrowUp at the oldest entry, ArrowDown with no entry loaded, and every other key leave it unchanged |
| Terminal.Presses | src/components/InteractiveTerminal.tsx:201-220 | any sequence of key presses keeps the cursor in `[-1, len)` |
| Terminal.ArrowUpWalksNewestFirst | src/components/InteractiveTerminal.tsx:202-208 | from a fresh cursor, k ArrowUp presses load the k-th most recent command |
| Terminal.ArrowDownFromNewest | src/components/InteractiveTerminal.tsx:215-217 | ArrowDown from the newest entry empties the input and unloads the history |
| Terminal.ArrowDownUndoesArrowUp | src/components/InteractiveTerminal.tsx:202-214 | ArrowDown undoes an ArrowUp that moved |
| Terminal.Console.constructor | src/components/InteractiveTerminal.tsx:12-20 | closed, not minimised, empty input and history, no entry loaded, and the two greeting lines |
| Terminal.Console.Open | src/components/InteractiveTerminal.tsx:225 | the floating button opens the terminal |
| Terminal.Console.Close | src/components/InteractiveTerminal.tsx:271 | the close button closes it |
| Terminal.Console.ToggleMinimize | src/components/InteractiveTerminal.tsx:264 | the minimise button flips the minimised flag |
| Terminal.Console.Input | src/components/InteractiveTerminal.tsx:304 | typing replaces the input text |
| Terminal.Console.Submit | src/components/InteractiveTerminal.tsx:181-198 | blank input changes nothing. Otherwise: the command is appended to the history, the cursor and input reset, and the output is the old output plus the echo and the result (or empty for `clear`); `exit` closes the terminal |
| Terminal.Console.KeyDown | src/components/InteractiveTerminal.tsx:201-220 | `handleKeyDown` moves the cursor and input exactly as `KeyStep` does, and keeps the cursor valid |
| Fire.CreateParticle | src/components/Hero.tsx:30-38 | a new ember starts on the bottom edge, with x in `[0, 300)`, sideways speed in `[-1, 1)`, upward speed in `(-4, -1]` and life in `[0.5, 1)` |
| Fire.FrameBounds | src/components/Hero.tsx:45-59 | after a frame, the buffer holds at most 100 embers and at most one more than before; every survivor has positive life and is the advanced form of an ember that was there |
| Fire.NoPositionCulling | src/components/Hero.tsx:56-59 | an ember whose life stays positive survives wherever it is, even off the canvas |
| Fire.AgedLife | src/components/Hero.tsx:54 | after k frames an ember has lost exactly k hundredths of its life |
| Fire.DeadWithinHundredFrames | src/components/Hero.tsx:36 | since spawn life is below 1, no ember survives 100 updates |
| Fire.FramePreservesBounds | src/components/Hero.tsx:45-59 | a frame preserves the buffer invariant: at most 100 embers, each with life in `(0, 1)` |
| Fire.FireEffect.constructor | src/components/Hero.tsx:22-28 | the particle array starts empty |
| Fire.FireEffect.Animate | src/components/Hero.tsx:40-72 | the in-place push and backward splice loop leave exactly the buffer `Frame` specifies, and keep the invariant |
| CyberGrid.ColorHex | src/components/CyberGrid.tsx:21-26 | every colour is a seven-character `#rrggbb` code: `#` followed by six upper-case hex digits |
| CyberGrid.GridSize | src/components/CyberGrid.tsx:29-33 | every density has a positive spacing |
| CyberGrid.DenserIsFiner | src/components/CyberGrid.tsx:29-33 | denser grids have strictly smaller spacing |
| CyberGrid.HexDigit | src/components/CyberGrid.tsx:170 | `toString(16)` writes a lower-case hexadecimal digit |
| CyberGrid.DigitValue | src/components/CyberGrid.tsx:170 | every character reads as a value below 16 |
| CyberGrid.Hex | src/components/CyberGrid.tsx:170 | `toString(16)` is a non-empty string of hex digits with no leading zero |
| CyberGrid.HexRoundTrip | src/components/CyberGrid.tsx:170 | reading the hex text back gives the original number |
| CyberGrid.PadStart | src/components/CyberGrid.tsx:170 | `padStart` reaches the target length and ends with the original string; every character before it is the pad character |
| CyberGrid.AlphaInRange | src/components/CyberGrid.tsx:170 | for life in `(0, 1]`, `Math.floor(life * 255)` is a byte value in `[0, 255]` |
| CyberGrid.ByteSuffix | src/components/CyberGrid.tsx:170 | a byte value padded to two hex digits is exactly two hex digits that read back as the same value |
| CyberGrid.MoteFillIsRgba | src/components/CyberGrid.tsx:170 | for life in `(0, 1]`, a mote's fill style is a nine-character `#rrggbbaa` colour; its alpha is two hex digits worth `floor(life * 255) <= 255` |
| CyberGrid.StrokeStyle | src/components/CyberGrid.tsx:75 | the grid stroke is the colour followed by alpha `33`, which is one fifth of `ff` |
| CyberGrid.GridLines | src/components/CyberGrid.tsx:79-88 | the line loop draws `extent / g + 1` lines at `0, g, 2g, ...`, all within the canvas |
| CyberGrid.Coordinate | src/components/CyberGrid.tsx:96-97 | a highlight coordinate is a non-negative multiple of the spacing, inside a non-empty canvas |
| CyberGrid.HighlightCount | src/components/CyberGrid.tsx:93 | the highlight count is exactly `floor(width * height / (gridSize * gridSize * 10))`: that many blocks fit in the canvas area and one more does not; there are no highlights on an empty canvas |
| CyberGrid.HighlightAt | src/components/CyberGrid.tsx:95-110 | a highlighted point lies on a grid intersection inside the canvas; it glows exactly when its test draw exceeds 0.7, with a radius in `[3, 6)` |
| CyberGrid.HighlightPoints | src/components/CyberGrid.tsx:95-111 | the highlight loop yields exactly `HighlightCount` points, the i-th drawn from the i-th draws |
| CyberGrid.DrawGrid | src/components/CyberGrid.tsx:57-112 | one `drawGrid` puts the vertical and horizontal lines, the stroke colour and the highlights on the canvas, as the functions above specify |
| CyberGrid.Mount | src/components/CyberGrid.tsx:36-41 | the effect schedules a frame and listens for resizes exactly when both the canvas and its context exist |
| CyberGrid.AnimatePropIgnored | src/components/CyberGrid.tsx:177-181 | `animate={false}` changes nothing: with a canvas and a context, a frame is always scheduled |
| CyberGrid.Cleanup | src/components/CyberGrid.tsx:183-186 | the cleanup cancels the frame and removes the listener |
| CyberGrid.CreateMote | src/components/CyberGrid.tsx:143-149 | a new mote lies on the canvas, with size in `[1, 3)`, speed in `[0.2, 0.7)` and full life |
| CyberGrid.Tick | src/components/CyberGrid.tsx:134-141 | the spawn timer fires exactly when the accumulated time passes 300 ms, and then resets to 0; otherwise it keeps the sum, which stays at most 300 |
| CyberGrid.DriftFramePreserves | src/components/CyberGrid.tsx:137-165 | a frame keeps at most 50 motes, each with life in `(0, 1]` and above the bottom edge; a full buffer never grows |
| CyberGrid.FallenAfter | src/components/CyberGrid.tsx:159-160 | after k frames a mote has fallen k times its speed and lost k × 0.005 of its life |
| CyberGrid.GoneWithinTwoHundredFrames | src/components/CyberGrid.tsx:148-165 | no mote survives 200 updates |
| CyberGrid.DriftField.constructor | src/components/CyberGrid.tsx:119-129 | the loop starts with no motes and both clocks at 0 |
| CyberGrid.DriftField.Resize | src/components/CyberGrid.tsx:43-55 | a resize sets the canvas size and keeps the motes |
| CyberGrid.DriftField.UpdateMotes | src/components/CyberGrid.tsx:157-165 | the backward splice loop leaves exactly the fallen motes that are still visible, in their order |
| CyberGrid.DriftField.Animate | src/components/CyberGrid.tsx:131-175 | a frame records the timestamp, steps the timer per `Tick`, leaves the motes `DriftFrame` specifies, and keeps the invariant |
| Loading.Increment | src/components/LoadingScreen.tsx:34 | each increment is between 5 and 14 |
| Loading.ProgressStep | src/components/LoadingScreen.tsx:34-37 | below 100, an update raises progress by at least 5 or to 100, never past it, and reaches 100 exactly when the sum does |
| Loading.ProgressEffect | src/components/LoadingScreen.tsx:26-47 | a progress timer is scheduled exactly while loading below 100, with a delay in `[300, 600)`. The 500 ms completion timer is scheduled exactly at 100 with a callback |
| Loading.RunBounded | src/components/LoadingScreen.tsx:31-38 | progress never decreases and never passes 100 |
| Loading.RunReachesComplete | src/components/LoadingScreen.tsx:31-38 | one update per 5 missing points always reaches 100 |
| Loading.TwentyUpdatesSuffice | src/components/LoadingScreen.tsx:31-38 | from 0, twenty updates finish the bar whatever the draws |
| Loading.BootTyper.constructor | src/components/LoadingScreen.tsx:52-53 | the typewriter starts at the first character of the first message, with nothing shown |
| Loading.BootTyper.TypeStep | src/components/LoadingScreen.tsx:56-77 | one `typeMessage` either shows one more character of the current message (next call after 30 ms) or files it and clears the line (next call after 300 ms, none after the last), and does nothing once all are done |
| Loading.BootTyper.Boot | src/components/LoadingScreen.tsx:56-79 | the whole timeout chain terminates, with all seven boot messages filed in order and the line cleared |
| Loading.StartTyping | src/components/LoadingScreen.tsx:50-79 | the typewriter runs only while the screen is loading; from fresh closure indices it then shows the first character of the first message, files nothing yet and schedules the next call after 30 ms |
| Stats.Clamp | src/components/SystemStats.tsx:24 | `Math.min(Math.max(v, lo), hi)` lies in the range, keeps values already inside it and sends the others to the nearer bound |
| Stats.Delta | src/components/SystemStats.tsx:23 | a random delta lies in `[-shift, span - shift)` |
| Stats.Start | src/components/SystemStats.tsx:14-17 | a random initial value lies in `[base, base + span)` |
| Stats.ClampMovesLittle | src/components/SystemStats.tsx:22-25 | from a value in range, a clamped tick moves by at most the delta, in its direction |
| Stats.Label | src/components/SystemStats.tsx:50-53 | each health level has its own badge word: OPTIMAL, NOMINAL, DEGRADED, CRITICAL |
| Stats.HealthColor | src/components/SystemStats.tsx:50-53 | each health level has its own colour: green, blue, yellow, pink |
| Stats.HealthStatus | src/components/SystemStats.tsx:47-54 | the badge is OPTIMAL, NOMINAL, DEGRADED or CRITICAL exactly as the sum of CPU, memory and performance lies above 225, in `(150, 225]`, in `(90, 150]`, or at most 90; network speed plays no part |
| Stats.HealthMonotone | src/components/SystemStats.tsx:47-54 | raising any metric never lowers the badge |
| Stats.UsageColor | src/components/SystemStats.tsx:81 | the usage colour is pink exactly above 80, yellow exactly in `(60, 80]`, otherwise green |
| Stats.NetworkWidth | src/components/SystemStats.tsx:141 | the network bar is at most 100% wide, at least 5% within the clamp range, and full from 200 |
| Stats.SystemStats.constructor | src/components/SystemStats.tsx:6-9 | every metric starts at 0, which shows CRITICAL |
| Stats.SystemStats.Initialize | src/components/SystemStats.tsx:14-17 | the mount values lie in their draw ranges and within the clamp ranges, and the badge is NOMINAL or DEGRADED |
| Stats.SystemStats.Tick | src/components/SystemStats.tsx:20-41 | each interval tick clamps every metric into its range, after which the badge is never CRITICAL |
| Stats.InRangeNeverCritical | src/components/SystemStats.tsx:48-53 | with every metric at or above its clamp floor, the badge is never CRITICAL |
| Projects.ThreeImagesEach | src/components/Projects.tsx:20-75 | every project has three images, so no carousel is empty |
| Projects.JsRem | src/components/Projects.tsx:112 | JavaScript's `%` agrees with the mathematical remainder on non-negative operands. For a negative dividend it lies in `(-n, 0]`. Either way it differs from the dividend by a multiple of `n` |
| Projects.NextImage | src/components/Projects.tsx:111-113 | next moves one image forward inside the carousel and wraps from the last image to the first |
| Projects.PrevImage | src/components/Projects.tsx:115-117 | previous moves one image back inside the carousel and wraps from the first image to the last |
| Projects.PrevUndoesNext | src/components/Projects.tsx:111-117 | each button undoes the other |
| Projects.ForwardIsModular | src/components/Projects.tsx:112 | k presses of next move the index k places round the carousel |
| Projects.FullCycle | src/components/Projects.tsx:112 | pressing next once per image returns to the starting image |
| Projects.BrowseInBounds | src/components/Projects.tsx:111-117 | from an image in bounds, any sequence of next and prev clicks leaves the index in bounds |
| Projects.CarouselInBounds | src/components/Projects.tsx:83-117 | starting at image 0, whatever sequence of next and prev clicks follows, the displayed image is in bounds |
| Chunks.ManualChunk | vite.config.ts:14-18 | a module id without `node_modules` gets no manual chunk. The rule throws exactly when the id contains `node_modules` but never `node_modules/` |
| Chunks.ChunkNameHasNoSlash | vite.config.ts:16 | a chunk name never contains `/` and is a prefix of the text after the first `node_modules/` |
| Chunks.ChunkIsPackage | vite.config.ts:16 | a path through `node_modules/pkg/...` lands in the chunk `pkg` |
| Chunks.ScopedPackageChunk | vite.config.ts:16 | a scoped package `node_modules/@scope/name/...` lands in the chunk `@scope`, not `@scope/name` |
| Chunks.NestedDirectoryChunk | vite.config.ts:16 | `node_modules/xnode_modules/y` lands in `x`, because `split` cuts at every occurrence |
| TechStack.FilteredStacks | src/components/TechStackHighlights.tsx:532-534 | `all` shows every stack; any other category shows exactly the stacks of that category |
| TechStack.FilterKeepsOrder | src/components/TechStackHighlights.tsx:534 | filtering preserves the display order of the stacks |
| TechStack.CategoriesMatchStacks | src/components/TechStackHighlights.tsx:530 | the buttons after `all` name the stacks' categories in order, each used once |
| TechStack.EachCategoryOneStack | src/components/TechStackHighlights.tsx:530-534 | each button other than `all` shows exactly its one stack |
| TechStack.UnknownCategoryEmpty | src/components/TechStackHighlights.tsx:534 | a category that no button offers shows nothing |
| TechStack.Label | src/components/TechStackHighlights.tsx:582 | a label upper-cases the first character and keeps the rest |
| TechStack.Labels | src/components/TechStackHighlights.tsx:582 | `all` shows as `All`; the other labels show as written |
| TechStack.LevelsArePercentages | src/components/TechStackHighlights.tsx:64-355 | every skill level is a bar width between 0 and 100 percent |
| Glitch.CharsetSize | src/components/GlitchText.tsx:28 | the glitch charset has 21 characters |
| Glitch.RandomChar | src/components/GlitchText.tsx:27-30 | a random glitch character is always from the charset |
| Glitch.GlitchFactor | src/components/GlitchText.tsx:34 | every variant replaces characters with a probability strictly between 0 and 1 |
| Glitch.GlitchDuration | src/components/GlitchText.tsx:51 | every glitch lasts a positive time |
| Glitch.StrongerVariantsGlitchMore | src/components/GlitchText.tsx:34-51 | heavy glitches more often and for longer than light, and light more than subtle |
| Glitch.GlitchText | src/components/GlitchText.tsx:33-38 | the glitched text has the original length. Each character is the original or from the charset, and it is the original wherever its draw is not below the factor |
| Glitch.StrongerReplacesMore | src/components/GlitchText.tsx:34-36 | with the same draws, a stronger variant replaces every position a weaker one does, with the same character |
| Glitch.EffectSetup | src/components/GlitchText.tsx:41-73 | the effect is inert exactly while waiting for a hover. Otherwise it glitches at once unless subtle, sets the variant's duration, and schedules the next glitch within a second of the interval |
| Glitch.ColorClass | src/components/GlitchText.tsx:82-89 | the four named colours map to their classes and everything else to `text-white` |
| Glitch.Rendered | src/components/GlitchText.tsx:133 | outside a glitch the text is shown unchanged, and it always keeps its length |
| Glitch.ShowsLayers | src/components/GlitchText.tsx:137 | the offset copies are shown while glitching and always for the heavy variant, and never otherwise |
| Glitch.LayersAccompanyGlitch | src/components/GlitchText.tsx:133-137 | whenever the shown text differs from the original, the offset copies are shown too |

## Left out

- Canvas drawing is not modelled: gradients, arcs, fills, `clearRect` and `ctx.scale`. The grid model records the line offsets, stroke colour and highlight points that would be drawn.
- Scheduling is left out, because it needs a clock. This covers `requestAnimationFrame`, `setTimeout`/`setInterval` chains and `clearTimeout`. Each callback is modelled as one call: `Animate`, `TypeStep`, `Tick`, `Run`. Where the source chooses a delay, it is reported as a value.
- CyberGrid.DriftField.Animate: does not include the `drawGrid()` redraw of each frame, whose random highlights `CyberGrid.DrawGrid` models separately.
- CyberGrid.DriftField.Resize: the backing-store size is taken as whole pixels. The truncation of `width * devicePixelRatio` and the `getBoundingClientRect` measurement are left out, because they go through the DOM.
- The Hero canvas mount guard and the 2D-context lookup are left out. `Fire.FireEffect` starts from a mounted canvas.
- `Date().toLocaleString()` is the `now` parameter of `Terminal.ProcessCommand`, because it reads the clock and the locale.
- DOM effects are left out: the terminal's auto-scroll and focus, and the `scrollIntoView` that `navigate` triggers. The latter is reported as the `ScrollTo` effect.
- `toLowerCase` and `toUpperCase` are modelled on ASCII letters only. Other scripts' case mappings are left out.
- Strings are sequences of Unicode scalar values, not of the UTF-16 code units JavaScript indexes. The two `\U{…}` charset characters lie in the Basic Multilingual Plane, so each is one code unit in the source as well.
- Glitch.GlitchText and TechStack.Label: UTF-16 indexing of characters outside the Basic Multilingual Plane is not modelled. `split('')` and `charAt(0)` would treat such a character as two surrogate halves, drawn, replaced or upper-cased separately; the model treats it as one character.
- Floating-point rounding is not modelled: reals are exact. For example, `Fire.AgedLife` and `CyberGrid.FallenAfter` state exact decrements, which IEEE doubles would only approximate.
- Projects.NextImage and Projects.PrevImage require a non-empty image list. In JavaScript, `% 0` yields NaN, and every project has three images (`Projects.ThreeImagesEach`).
- Card contents are left out because they are static markup: the tech-stack and technology descriptions, icons and colours, and the project cards' text, tags and links.
- Framer-motion animation props are left out because they are presentation only, and so are the remaining components: navbar, timeline, contact form, footer, cursor and decorative elements.
- Loading.StartTyping and Loading.BootTyper.Boot: the typewriter effect's missing cleanup, which would let a re-run overlap an earlier chain, is not modelled, because its timers are not modelled.
- Loading.StartTyping: the effect is started from the typer's initial state. A second start while messages are already filed is not modelled. The effect's closure indices would restart at 0, but the `messages` state would keep its earlier entries, so the typer's invariant would not hold.
