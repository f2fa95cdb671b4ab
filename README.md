# A verified model of the chat front end and its ASCII-video background

This project models the two sequential cores of a terminal chat client that
talks to several AI providers (Claude, Grok, OpenAI, Gemini) over an
animated ASCII-art video background:

- **The ASCII-video compositor** (`src/video.rs`), in modules `Video` and
  `VideoProperties`. It covers:
  - the brightness-to-glyph mapping over a 69-glyph palette;
  - the conversion of a packed RGB24 raster, whose rows are separated by a
    stride, into a row-major frame of coloured glyphs;
  - the compositor object, which holds a bounded queue of decoded frames and
    a "latest frame" slot, with an opacity clamped into [0, 1];
  - drawing the latest frame into a terminal buffer: centred, clipped to the
    area, dimmed toward black, and guarded against a short cell vector.
- **The chat state machine** (`src/chat.rs`), in modules `ChatModel`, `Chat`
  and `ChatProperties`. `ChatModel` states one key press (`KeyStep`) and one
  tick (`PollStep`) as functions on a `ChatState` value. The class
  `Chat.ChatInterface` keeps the same state in fields. Its methods
  (`HandleKey`, `Update`, the F2 drain loop, start-up loading) are proved to
  move that state exactly as the step functions say, and to keep the scroll
  position in range. `ChatProperties` proves what the key bindings promise:
  - the provider cycle of period four;
  - Ctrl+L clears only the current history;
  - Enter acts only when idle and non-empty;
  - scrolling saturates at both ends;
  - interface notices never reach the AI client;
  - stored histories load with the right roles.

The AI client and its response channel are a queue of `Result<string>`
(`responses`), filled by `Deliver`, plus a log of the message lists handed to
the client (`requests`). The database is represented only by the rows it
returns at start-up: an optional map from provider to stored messages, `None`
when the database could not be opened and no entry for a provider whose read
failed.

The palette literal in `src/video.rs` has 69 glyphs once its escapes are
decoded, so white maps to index 68, the dollar sign.

## Model

| member | source | states |
|---|---|---|
| Video.Luminance | src/video.rs:25-28 | brightness is the weighted sum truncated toward zero, so it lies between the darkest and the brightest channel |
| Video.AsciiIndex | src/video.rs:30-33 | the palette index y*(P-1)/255 is always inside the palette; brightness 0 gives index 0 and 255 gives the last index |
| Video.AsciiFor | src/video.rs:30-34 | no contract of its own: the glyph is the palette entry at the index of the pixel's brightness; its meaning is carried by `VideoProperties.GlyphInPalette`, `WhiteIsDensest`, `BlackIsLightest`, `LuminanceMonotone` and `AsciiIndexMonotone` |
| Video.PixelCell | src/video.rs:46-49 | no contract of its own: the cell pushed for the pixel whose bytes start at an offset, its glyph with the pixel's own colour; stated through `VideoProperties.FrameCellBytes` |
| Video.RowCells | src/video.rs:44-50 | its contract states one cell per pixel of the row; `ConvertRow` is proved to build it and `RowCellsOfSlice` ties a row slice to offsets into the whole plane |
| Video.Rows | src/video.rs:42-51 | its contract states there are height rows; by definition row y is `RasterRow`, the cells of the row slice at y * stride, and `VideoProperties.FrameCellBytes` states what that gives cell by cell |
| Video.FrameCells | src/video.rs:36-58 | no contract of its own: the cells `to_ascii_frame` pushes, the rows laid one after the other; `ToAsciiFrame` is proved to build it, and `VideoProperties.FrameLength` and `FrameCellBytes` give its length and each cell |
| Video.AsU16 | src/video.rs:54-55 | the `as u16` cast keeps a value below 65536 unchanged |
| Video.RowInside | src/video.rs:43 | in a covered raster, the byte slice of every row lies inside the plane |
| Video.RowCellsOfSlice | src/video.rs:43-50 | converting a row from its own slice gives the same cells as reading the plane at the row's offset |
| Video.FlattenLength | src/video.rs:42-51 | rows of w cells each, pushed one after the other, give rows*w cells |
| Video.FlattenIndex | src/video.rs:42-51 | after pushing rows of w cells in order, cell x of row y is at index y*w+x |
| Video.ConvertRow | src/video.rs:44-50 | the inner loop pushes, for pixel x, the glyph and the colour of bytes 3x..3x+2 of the row slice |
| Video.ToAsciiFrame | src/video.rs:36-58 | the frame's cells are the raster's rows, converted and laid out row after row; w and h pass through the u16 cast; for dimensions below 65536 the frame has exactly w*h cells |
| Video.ClampOpacity | src/video.rs:169 | the opacity is clamped into [0, 1], unchanged when already inside |
| Video.Dim | src/video.rs:196-199 | a dimmed channel is never brighter than the original, equals it at opacity 1 and is 0 at opacity 0 |
| Video.Place | src/video.rs:183-187 | the drawn size is the minimum of frame and area in each direction; the drawn rectangle lies inside the area, centred with the odd slack column or row on the right or bottom |
| Video.CellAt | src/video.rs:189-194 | a frame cell is drawn only inside the drawn rectangle, and it is a cell of the frame |
| Video.Paint | src/video.rs:195-204 | no contract of its own: a painted cell takes the frame cell's glyph and its channels dimmed by the opacity, keeping its background; stated by `VideoProperties.DrawnCell` |
| Video.Rendered | src/video.rs:181-206 | with no latest frame, or outside the drawn rectangle, a terminal cell is unchanged; drawing never changes a background colour |
| Video.RenderedInside | src/video.rs:189-204 | at offset (x, y) of the drawn rectangle the cell is painted from frame cell y*w+x when that index is in range, and left alone when it is not |
| Video.VideoBackground.constructor | src/video.rs:160-171 | a new compositor has an empty queue, no latest frame and the clamped opacity |
| Video.VideoBackground.Publish | src/video.rs:126-127 | the worker's send appends a frame to the bounded channel exactly when it holds fewer than 8 |
| Video.VideoBackground.Update | src/video.rs:173-178 | a tick takes the queue's head into the latest slot and removes exactly that frame; an empty queue changes nothing |
| Video.VideoBackground.RenderBackground | src/video.rs:180-209 | every buffer cell ends as `Rendered` says: frame cells drawn inside the drawn rectangle, every other cell unchanged; the slack subtraction cannot underflow |
| Video.VideoBackground.DrawRow | src/video.rs:190-205 | one pass of the inner loop paints row y of the drawn rectangle and leaves every other row unchanged |
| VideoProperties.PaletteLength | src/video.rs:16 | the palette has 69 glyphs and ends with the dollar sign |
| VideoProperties.PaletteStart | src/video.rs:16 | the palette starts with the space |
| VideoProperties.GlyphInPalette | src/video.rs:30-34 | the glyph drawn for a pixel is always a palette glyph |
| VideoProperties.WhiteIsDensest | src/video.rs:25-33 | a white pixel draws the dollar sign, the densest glyph |
| VideoProperties.BlackIsLightest | src/video.rs:25-33 | a black pixel draws the space |
| VideoProperties.LuminanceTruncates | src/video.rs:25-28 | the cast truncates and does not round (weighted sum 0.886 gives 0) |
| VideoProperties.LuminanceMonotone | src/video.rs:25-28 | a pixel brighter in every channel has at least the same brightness |
| VideoProperties.AsciiIndexMonotone | src/video.rs:30-33 | the palette index never decreases as brightness increases |
| VideoProperties.AsciiIndexOnto | src/video.rs:30-33 | every palette glyph is drawn for some brightness |
| VideoProperties.ClampExamples | src/video.rs:169 | 1.5 clamps to 1, -0.2 to 0, and 0.3 stays 0.3 |
| VideoProperties.ClampIdempotent | src/video.rs:169 | clamping twice is clamping once |
| VideoProperties.DimMonotone | src/video.rs:196-199 | more opacity never gives a darker channel |
| VideoProperties.DimHalf | src/video.rs:196-199 | at opacity 0.5 a full channel becomes 127, the product truncated |
| VideoProperties.CentreExample | src/video.rs:183-187 | a 4x4 frame in a 10x10 area at the origin is drawn from (3, 3) |
| VideoProperties.ClipExample | src/video.rs:183-187 | a frame larger than the area is clipped to the area and drawn from its corner |
| VideoProperties.CellAtWellFormed | src/video.rs:189-194 | in a frame with exactly w*h cells the index guard never fires inside the drawn rectangle |
| VideoProperties.DrawnCell | src/video.rs:189-205 | a drawn cell takes the frame cell's glyph and its colour dimmed channel by channel, and keeps its background; every other cell is unchanged; with w*h cells a cell is drawn exactly inside the drawn rectangle |
| VideoProperties.FrameCellBytes | src/video.rs:43-50 | cell y*w+x of a converted covered raster holds the bytes at y*stride+3x..+2, in bounds, and the glyph for them |
| VideoProperties.FrameLength | src/video.rs:36-58 | a covered raster converts to height*width cells |
| ChatModel.AllProvidersComplete | src/chat.rs:75-80 | start-up visits every provider |
| ChatModel.NextProvider | src/chat.rs:144-149 | F2 always selects a different provider |
| ChatModel.SatSub | src/chat.rs:185 | `saturating_sub` stops at zero and is exact when it does not saturate |
| ChatModel.SetCurrent | src/chat.rs:110-114 | writing through the current history's entry leaves that entry present (created when missing) and holding the new messages; the other providers' histories and every other field, the provider included, are unchanged |
| ChatModel.SystemNotice | src/chat.rs:260-268 | no contract of its own: an assistant message flagged as a notice, its content behind the wrench; `ChatProperties.PollErr` and `NoticeNotSent` state what follows from it |
| ChatModel.AddSystem | src/chat.rs:260-268 | exactly one notice is appended to the current history; the other providers' histories and every other field are unchanged |
| ChatModel.FromStored | src/chat.rs:86-95 | no contract of its own: the role mapping of one stored row; stated by `ChatProperties.LoadedRoles` |
| ChatModel.LoadedHistory | src/chat.rs:84-96 | no contract of its own: the stored rows converted in order; `ChatProperties.LoadedRoles` and `StoredRoundTrip` state its length, roles and contents |
| ChatModel.LoadedFrom | src/chat.rs:82-98 | no contract of its own: the histories after reading the providers in turn; `ChatProperties.LoadedFromKeys` states exactly which providers are loaded and with what |
| ChatModel.SwitchProvider | src/chat.rs:137-156 | no contract of its own: the F2 arm as a state change; `ChatProperties.SwitchEffect`, `FourSwitchesReturn` and `LateReplyJoinsNewProvider` state its effect |
| ChatModel.Submit | src/chat.rs:163-183 | no contract of its own: the Enter arm when it acts; `ChatProperties.SubmitEffect` states its effect |
| ChatModel.KeyStep | src/chat.rs:116-204 | no contract of its own: the whole of `handle_key` as a state change; the key lemmas of `ChatProperties` and `KeyStepKeepsScrollInRange` state what each key does |
| ChatModel.PollStep | src/chat.rs:228-258 | no contract of its own: the whole of `update` as a state change; `ChatProperties.PollEmpty`, `PollOk`, `PollErr` and `PollStepKeepsScrollInRange` state its effect |
| ChatModel.Outgoing | src/chat.rs:207-218 | the request never has more messages than the history |
| ChatModel.KeyStepKeepsScrollInRange | src/chat.rs:184-199 | after any key the scroll position is at most max(count, 1) - 1 of the current history |
| ChatModel.PollStepKeepsScrollInRange | src/chat.rs:228-258 | after a tick the scroll position is still in range |
| Chat.ChatInterface.constructor | src/chat.rs:44-71 | a new interface is idle, with empty input, scroll 0, and the histories the database could read |
| Chat.ChatInterface.LoadAllHistories | src/chat.rs:73-101 | the loop over the four providers stores, for each provider the database could read, its converted history, and nothing for the others |
| Chat.ChatInterface.LoadHistory | src/chat.rs:84-96 | stored rows are converted one by one, in order |
| Chat.ChatInterface.GetCurrentMessages | src/chat.rs:103-108 | returns the selected provider's history, empty when it has none |
| Chat.ChatInterface.AddSystemMessage | src/chat.rs:260-268 | appends one wrench-prefixed notice to the current history and changes nothing else |
| Chat.ChatInterface.SendMessage | src/chat.rs:206-218 | hands the client exactly the current history with notices removed |
| Chat.ChatInterface.Deliver | src/chat.rs:222-225 | the client's result is queued behind earlier ones |
| Chat.ChatInterface.SwitchToNextProvider | src/chat.rs:137-156 | the drain loop empties the queue; then the next provider is selected, streaming stops, scroll resets and one notice is added |
| Chat.ChatInterface.SubmitInput | src/chat.rs:163-183 | records the typed line as the user's message, clears the line, starts streaming and sends the history |
| Chat.ChatInterface.HandleKey | src/chat.rs:116-204 | one key press moves the state exactly as `KeyStep` says and keeps the scroll position in range |
| Chat.ChatInterface.EditKey | src/chat.rs:133-183 | F1, F2, typing, Backspace and Enter move the state as `KeyStep` says |
| Chat.ChatInterface.ScrollKey | src/chat.rs:184-199 | the arrow and page keys move the state as `KeyStep` says |
| Chat.ChatInterface.Update | src/chat.rs:228-258 | one tick moves the state exactly as `PollStep` says and keeps the scroll position in range |
| ChatProperties.TypeThenDelete | src/chat.rs:157-162 | typing c appends it; Backspace afterwards restores the state |
| ChatProperties.BackspaceDropsLast | src/chat.rs:160-162 | Backspace drops the last character, and does nothing on an empty line |
| ChatProperties.OtherChordsIgnored | src/chat.rs:117-131 | every Control chord but Ctrl+L leaves the state unchanged |
| ChatProperties.ClearOnlyCurrent | src/chat.rs:117-131 | Ctrl+L empties the current history, scrolls to 0 and leaves the other histories and fields unchanged |
| ChatProperties.HelpTwiceIsIdentity | src/chat.rs:134-136 | F1 toggles help, so two presses are the identity |
| ChatProperties.ProviderCycle | src/chat.rs:144-149 | the provider cycle has period exactly four |
| ChatProperties.SwitchEffect | src/chat.rs:137-156 | F2 selects the next provider, stops streaming, empties the queue, resets scroll and appends exactly one notice to the new provider's history |
| ChatProperties.FourSwitchesReturn | src/chat.rs:137-156 | four F2 presses return to the starting provider, each history having gained only its switch notice |
| ChatProperties.EnterActsIff | src/chat.rs:163-164 | Enter changes the state if and only if the line is not empty and no reply is awaited |
| ChatProperties.SubmitEffect | src/chat.rs:163-183 | Enter appends one user message with the old line, clears the line, starts streaming and sends the history plus that message |
| ChatProperties.ScrollUpSaturates | src/chat.rs:184-195 | Up and PageUp move up by 1 and 10, stopping at 0, and change nothing else |
| ChatProperties.ScrollDownIff | src/chat.rs:187-192 | Down moves one step exactly when a later message exists, and otherwise changes nothing |
| ChatProperties.PageDownClamps | src/chat.rs:196-199 | PageDown moves ten messages but never past the last one |
| ChatProperties.PollEmpty | src/chat.rs:228-229 | a tick with nothing delivered changes nothing |
| ChatProperties.PollOk | src/chat.rs:229-250 | a reply stops streaming, joins the history as the assistant's and scrolls to it |
| ChatProperties.PollErr | src/chat.rs:251-253 | an error stops streaming and adds one notice that starts with the wrench and "Error: " |
| ChatProperties.LateReplyJoinsNewProvider | src/chat.rs:137-156 | a reply delivered after F2 joins the newly selected provider's history |
| ChatProperties.OutgoingAppend | src/chat.rs:207-218 | building the request distributes over concatenated histories |
| ChatProperties.OutgoingWithoutNotices | src/chat.rs:207-218 | without notices the request is the history, message by message, in order, with roles mapped to "user" and "assistant" |
| ChatProperties.OutgoingDropsNotices | src/chat.rs:210 | a history of notices only sends nothing |
| ChatProperties.NoticeNotSent | src/chat.rs:210 | adding a notice does not change the request |
| ChatProperties.LoadedRoles | src/chat.rs:84-96 | a loaded message is the user's exactly when its stored role is "user"; its content is kept and it is never a notice |
| ChatProperties.StoredRoundTrip | src/chat.rs:84-96 | stored histories with roles "user" and "assistant" are sent back exactly as stored |
| ChatProperties.LoadedFromKeys | src/chat.rs:82-98 | reading providers in turn loads exactly those the database could read, each with its converted history |
| ChatProperties.StartupHistories | src/chat.rs:44-101 | at start-up every provider the database could read has its stored history, and the scroll position is in range |
| ChatProperties.StartupWithoutDatabase | src/chat.rs:49-52 | without a database every history starts empty |

## Left out

- The decode worker (`spawn_decode`) and its thread, the `AtomicBool` finished flag and the FFmpeg calls (`open_decoder`, `build_scaler`, the scaler, the packet, EOF and seek loop). They are concurrency and foreign-library code. The raster the scaler fills is a parameter of `ToAsciiFrame`.
- Video.VideoBackground.Publish: a send into the full channel is modelled as refused, with nothing queued. In the source the worker blocks until the compositor has received a frame. Blocking is not a sequential behaviour.
- Video.Luminance: the weighted sum is computed exactly over the rationals and then truncated, where the source sums in f32. f32 rounding changes whole-number greys: grey 37 sums to 36.999996 in f32 and gets luminance 36, below its darkest channel, so the model's lower bound does not hold for the source there; grey 222 gets 221 in the source and so draws palette glyph 58 where the model draws glyph 59.
- Video.Dim: `(c as f32 * opacity) as u8` is modelled as the floor of the exact real product. f32 rounding is not modelled.
- Video.ClampOpacity: NaN opacities are not modelled. The model's opacity is a real number.
- The terminal buffer is a class with its area and a two-dimensional array of cells, one per position of the area. ratatui's flat index arithmetic and widgets are not modelled; `cell_mut` returning a cell exactly for positions inside the buffer's area is.
- Video.ToAsciiFrame: requires every row's 3 * width bytes to lie inside the plane (`Raster.Covered`). The source's slice would panic otherwise; the rescaler's RGB24 frames always satisfy it.
- Video.VideoBackground.RenderBackground: requires the area's right and bottom edges to fit in a u16 (`Rect.Valid`), as ratatui's rectangles do. Under that requirement the u16 additions `x0 + x` and `y0 + y` are proved not to overflow. An area that breaks it is not modelled.
- The chat's ratatui rendering (`render`, `render_messages`, `render_help`) is UI and is not modelled.
- The AI client, `tokio::spawn` and the unbounded mpsc channel are replaced by the `responses` queue, filled by `Deliver`, and the `requests` log. The HTTP request and its latency are not modelled.
- The `Database` writes (`save_message`, `clear_history`) are left out. Their errors are ignored by the source, so they do not change the interface state. Reads are the optional map given to the constructor.
- Message timestamps (`Instant::now()`) are never read by the source and are not modelled.
- Provider display names and database keys come from `src/ai.rs`, which is not part of this model. The names used in the switch notice are placeholders. Histories are keyed by provider, which assumes distinct providers have distinct database keys.
- Key modifiers other than Control (Shift, Alt) are not distinguished. The source ignores them too, except that Control is checked first.
- `src/main.rs` (terminal setup, event polling, the sleep loop, command-line parsing) is not part of this model.
