# Keypad scanners and LED patterns for MicroPython, modelled in Dafny

This project models the sequential logic of four small MicroPython programs:

- **The interrupt-driven keypad scanner** (`Keypad_Timer`). Each timer tick samples the four columns of the current row of a 4x4 membrane keypad. It runs the press/release rule on that row's keys, records in a single slot the first key of a row in which a key went down, and moves the asserted row on by one.
- **The cooperative keypad scanner** (`Keypad_uasyncio`). One pass of `scan_coro` asserts each row in turn, waits 40 // 4 = 10 ms for it to settle, and processes its four keys. It pushes the character of every key that goes from UP to DOWN onto a FIFO queue, then deasserts the row.
- **The eight-LED "ping-pong" program** (`update_leds`, `cycle_leds`, `flash_leds`, `check_button`). It sweeps a single lit LED 0, 1, ..., 7, 6, ..., 0, 1, ... and switches to flashing all eight LEDs for ten steps after a button press.
- **The one-LED fade/flash program** (`pwm_cycle`, `fade_led`, `flash_led`, `update_led`, `check_button`). It fades the LED up and down by software PWM with a 20 ms period, and flashes it 100 ms on / 100 ms off for ten steps after a button press.

Pin writes, sleeps, key samples and queue pushes are recorded as traces. What is read from the hardware is passed in as a parameter: column levels, button readings, and the initial levels of outputs. Each program's state is a class whose methods change its fields. Each method is proved against a specification function, and the lemmas prove what the programs promise about those functions.

Files:

- `wrappers.dfy`: `Option`.
- `key_rule.dfy` (module `KeyRule`): the shared key table and the `key_process` rule. It also defines `SampleCols`, the table after a row's column loop.
- `keypad_timer.dfy` (module `KeypadTimer`): class `Keypad` for `Keypad_Timer`.
- `keypad_uasyncio.dfy` (module `KeypadAsync`): class `Keypad` for `Keypad_uasyncio`, the trace of a pass, and the lemmas about a pass.
- `flash_mode.dfy` (module `FlashMode`): the `flash_count` protocol that both LED programs share. A press arms ten flashes, and each flash step spends one.
- `led_array.dfy` (module `LedArray`): class `Board` for the eight-LED program.
- `led_fade_flash.dfy` (module `LedFadeFlash`): class `Led` for the fade/flash program.

Three facts about the keypad code shape the model:

- **Key states.** The key table knows only UP and DOWN (`keypad/keypad_timer.py:62-63`), so `KeyRule.KeyState` has exactly those two states.
- **When a key is reported.** A key is reported (slot or queue) when it goes from UP to DOWN; its release only changes its state.
- **The queue.** `Keypad_uasyncio` creates `Queue(maxsize=queue_size)` with `queue_size` defaulting to 0 (`keypad/keypad_uasyncio.py:66,71,75`). The model records the size without bounding the queue.

`Keypad_Timer.timer_callback` has a notable behaviour, and the model reproduces it as written: when a key of the sampled row goes DOWN, the slot gets the code and character of the row's *first* key (`keys[key_code]`, where `key_code = scan_row * len(cols)`). It does not get the key that was pressed. `KeypadTimer.SlotRecordsRowStart` exhibits it: pressing '6' leaves '4' in the slot.

## Model

| member | source | states |
|---|---|---|
| KeyRule.InitialKeys | keypad/keypad_uasyncio.py:77-85 | the table has 16 keys, key k carries the k-th character of "123A456B789C*0#D", and every key is UP |
| KeyRule.Process | keypad/keypad_timer.py:120-134 | the new state is the sampled level; KeyDown is reported iff the key was UP and reads pressed; KeyUp iff it was DOWN and reads released; no event iff the state is unchanged |
| KeyRule.EventsAlternate | keypad/keypad_timer.py:120-134 | over any sequence of samples a key's events strictly alternate, the first leaves the starting state, the last leads into the final state, and the final state is the last level sampled |
| KeyRule.SampleColsAt | keypad/keypad_timer.py:166-169 | a row's column loop sets exactly the keys base..base+n-1 to their columns' levels, keeping their characters; every other key is unchanged |
| KeyRule.SampleColsKeepsChars | keypad/keypad_timer.py:125-132 | processing keys never changes a key's character |
| KeyRule.SampleColsUntouched | keypad/keypad_timer.py:166-169 | a key the column loop has not reached yet still has its entry from before the loop |
| KeypadTimer.NextRow | keypad/keypad_timer.py:146-149 | the next row is always a valid row, and equals (row + 1) mod 4 |
| KeypadTimer.RowAfterTicks | keypad/keypad_timer.py:138-152 | from a fresh scanner, tick n samples row n mod 4, so every key is sampled once every four ticks |
| KeypadTimer.SlotAfterRising | keypad/keypad_timer.py:166-173 | after a row's column loop the slot holds the row's first key code and character iff some key of the row went DOWN, and is unchanged otherwise |
| KeypadTimer.SwitchLeavesOneHigh | keypad/keypad_timer.py:143-152 | deasserting the current row and asserting the next leaves exactly the next row high when no other row was high |
| KeypadTimer.SlotRecordsRowStart | keypad/keypad_timer.py:171-173 | pressing only '6' (second row, third column) counts as a DOWN in that row, whose first character is '4' |
| KeypadTimer.Keypad.constructor | keypad/keypad_timer.py:67-68 | a new scanner has the initial table, row 0 selected, an empty slot and no timer callback; the row outputs keep their levels |
| KeypadTimer.Keypad.Init | keypad/keypad_timer.py:72-104 | every key UP with its character, scan_row 0, key_code and key_char None, callback removed |
| KeypadTimer.Keypad.GetKey | keypad/keypad_timer.py:108-116 | returns the slot's character and leaves the slot empty |
| KeypadTimer.Keypad.KeyProcess | keypad/keypad_timer.py:120-134 | only key `code` changes, to the state Process gives, and the event returned is Process's |
| KeypadTimer.Keypad.ScanRowUpdate | keypad/keypad_timer.py:138-152 | the current row goes low, scan_row advances with wrap-around, the new row goes high; if only the old row could be high, only the new row is high after |
| KeypadTimer.Keypad.TimerCallback | keypad/keypad_timer.py:156-175 | the keys become SampleCols of the current row, the slot is set to the row's first key iff some key of it went DOWN and is unchanged otherwise, then the row advances; the slot keeps holding a first-of-row code with its character |
| KeypadTimer.Keypad.Start | keypad/keypad_timer.py:179-182 | the callback is installed |
| KeypadTimer.Keypad.Stop | keypad/keypad_timer.py:186-189 | the callback is removed |
| KeypadAsync.SampleRowsAt | keypad/keypad_uasyncio.py:147-164 | after n rows of a pass every key of those rows is in the state its column read, with its character kept, and later keys are untouched |
| KeypadAsync.ColStepsSampled | keypad/keypad_uasyncio.py:156-164 | a row's column loop samples the keys base, base+1, ..., base+n-1 once each, in order |
| KeypadAsync.ColStepsPuts | keypad/keypad_uasyncio.py:158-162 | the characters a row's column loop pushes are exactly those of its keys that go from UP to DOWN, in column order |
| KeypadAsync.ColPressesFlat | keypad/keypad_uasyncio.py:147-164 | the running key_code makes row r's presses the presses of key codes 4r..4r+3 in the row-major numbering |
| KeypadAsync.ColStepsNext | keypad/keypad_uasyncio.py:156-164 | the next column of a row sees its key as it was when the pass began, samples it and pushes its character exactly when it goes DOWN |
| KeypadAsync.RowStepsAlone | keypad/keypad_uasyncio.py:148-167 | from all rows low, a row's steps sample each key while that key's row alone is high, and end with all rows low |
| KeypadAsync.RowStepsSampled | keypad/keypad_uasyncio.py:148-167 | a row's steps sample that row's four keys in column order |
| KeypadAsync.RowStepsPuts | keypad/keypad_uasyncio.py:148-167 | asserting, settling and deasserting the row push nothing beyond the column loop's pushes |
| KeypadAsync.RowStepsSleep | keypad/keypad_uasyncio.py:152-153 | a row's steps sleep row_scan_delay_ms in total |
| KeypadAsync.PassAlone | keypad/keypad_uasyncio.py:148-167 | from all rows low, a whole pass samples every key while its own row alone is high, and ends with all rows low |
| KeypadAsync.PassVisitsEveryKey | keypad/keypad_uasyncio.py:147-164 | a pass samples key codes 0, 1, ..., 15 exactly once each, in row-major order |
| KeypadAsync.PassPutsPresses | keypad/keypad_uasyncio.py:156-164 | a pass pushes exactly the characters of the keys that go from UP to DOWN, in row-major order; releases push nothing |
| KeypadAsync.PassSleeps | keypad/keypad_uasyncio.py:148-153 | a pass sleeps 10 ms per row, 40 ms in all, which is exactly the pass budget |
| KeypadAsync.BudgetSplit | keypad/keypad_uasyncio.py:97 | 40 // rows rows never exceed the 40 ms budget and fall short by less than one per row; with 4 rows each gets 10 ms |
| KeypadAsync.PassRowStep | keypad/keypad_uasyncio.py:148-167 | one row's column loop, run on the state left by the earlier rows, extends the table, the trace and the queue to those of one more row |
| KeypadAsync.Keypad.constructor | keypad/keypad_uasyncio.py:66-67 | a new scanner has the initial table, an empty queue of the given size and running set to `start`, with init's defaults (size 0, not started); the row outputs keep their levels |
| KeypadAsync.Keypad.Init | keypad/keypad_uasyncio.py:71-99 | a new empty queue with maxsize queue_size, every key UP with its character, running == start; queue_size defaults to 0 and start to false |
| KeypadAsync.Keypad.Start | keypad/keypad_uasyncio.py:103-106 | running is set |
| KeypadAsync.Keypad.Stop | keypad/keypad_uasyncio.py:110-113 | running is cleared |
| KeypadAsync.Keypad.GetKey | keypad/keypad_uasyncio.py:117-121 | takes the oldest queued character (FIFO); an empty queue yields None and is left unchanged |
| KeypadAsync.Keypad.KeyProcess | keypad/keypad_uasyncio.py:125-139 | only key `code` changes, to the state Process gives, and the event returned is Process's |
| KeypadAsync.Keypad.ScanKey | keypad/keypad_uasyncio.py:158-162 | the key is processed; its character is appended to the queue and the trace iff it went from UP to DOWN |
| KeypadAsync.Keypad.ScanCols | keypad/keypad_uasyncio.py:156-164 | the column loop leaves the table SampleCols, the trace ColSteps, and appends exactly the row's presses to the queue |
| KeypadAsync.Keypad.ScanRow | keypad/keypad_uasyncio.py:148-167 | one row: assert, settle, process its columns, deassert; the row ends low and key_code advances by 4 |
| KeypadAsync.Keypad.ScanPass | keypad/keypad_uasyncio.py:146-167 | one pass processes every key once in row-major order, appends exactly the characters of the keys that went DOWN to the queue, leaves every row low, and samples each key while its row alone is high when every row started low |
| FlashMode.Poll | leds/led_array.py:97-105 | a pressed button arms exactly a full burst of 10 flashes; a released one leaves the count alone; the count stays non-negative |
| FlashMode.Consume | leds/led_array.py:83-85 | a step spends one flash iff the count is positive and never takes the count below zero |
| FlashMode.DrainCount | leds/led_array.py:82-85 | from a count c, the next c steps flash and no later step does; the count never goes negative |
| FlashMode.PressArmsBurst | leds/led_array.py:104-105 | after a press the next ten steps flash and the eleventh does not |
| LedArray.Low3 | leds/led_array.py:43 | `cycle_count & 7` is a valid LED index congruent to the count modulo 8, and is the count itself on 0..7 |
| LedArray.ReplaySwitches | leds/led_array.py:47-48 | switching LEDS[0..n-1] in turn sets exactly those LEDs and leaves the others |
| LedArray.CycleLightsOne | leds/led_array.py:40-53 | after cycle_leds exactly one LED is lit, LEDS[cycle_count & 7], whatever was lit before |
| LedArray.FlashLightsAll | leds/led_array.py:56-69 | flash_leds lights all eight LEDs for its first sleep and leaves all eight dark |
| LedArray.Bounce | leds/led_array.py:88-94 | the sweep update keeps 0 <= cycle_count <= 7 and cycle_dir in {-1, 1}, and always moves to a neighbouring LED |
| LedArray.SweepStep | leds/led_array.py:88-94 | one sweep update takes position and direction of step k to those of step k + 1 |
| LedArray.SweepSchedule | leds/led_array.py:79-94 | from LED 0 going up the sweep runs 0, 1, ..., 7, 6, ..., 0, 1, ... with period 14, turning onto 6 after 7 and onto 1 after 0 |
| LedArray.Next | leds/led_array.py:82-94 | a flash step spends one flash and leaves the sweep alone; the sweep range invariant is preserved |
| LedArray.BurstPausesSweep | leds/led_array.py:83-85 | a burst of k flashes leaves cycle_count and cycle_dir exactly as they were |
| LedArray.IdleFollowsSweep | leds/led_array.py:75-94 | with no press, n steps from the initial state follow the sweep schedule |
| LedArray.Board.constructor | leds/led_array.py:75-80 | flash_count 0, cycle_count 0, cycle_dir 1; the LEDs keep their levels |
| LedArray.Board.SwitchAll | leds/led_array.py:47-48 | the loop over LEDS switches every LED, in order, to the same state |
| LedArray.Board.CycleLeds | leds/led_array.py:40-53 | all LEDs off then LEDS[c & 7] on then sleep; exactly that LED is lit after |
| LedArray.Board.FlashLeds | leds/led_array.py:56-69 | all on, sleep, all off, sleep; all dark after |
| LedArray.Board.Step | leds/led_array.py:82-94 | one loop iteration: flashes and decrements while flash_count > 0, otherwise lights cycle_count's LED and bounces; the state follows Next and stays in range |
| LedArray.Board.CheckButton | leds/led_array.py:102-105 | a true reading sets flash_count to 10, a false one leaves it |
| LedFadeFlash.PeriodWritten | leds/led_fade_flash_uasyncio.py:27-32 | the on-phase and off-phase, each skipped when of zero length, make one period |
| LedFadeFlash.PeriodTiming | leds/led_fade_flash_uasyncio.py:25-32 | for 0 <= duty <= 20 a period lasts 20 ms with the LED high exactly duty ms of it; for any duty it lasts max(duty, 0) + max(20 - duty, 0) ms, because a sleep of negative time returns at once, and is high for max(duty, 0) ms; it ends high iff duty == 20 |
| LedFadeFlash.ZeroPhaseSkipped | leds/led_fade_flash_uasyncio.py:27-32 | duty 0 writes no high phase, duty 20 writes no low phase, any other duty writes both |
| LedFadeFlash.RepeatTiming | leds/led_fade_flash_uasyncio.py:26-32 | for 0 <= duty <= 20, `cycles` periods last 20 * cycles ms with the LED high for duty * cycles of them |
| LedFadeFlash.FadeDuties | leds/led_fade_flash_uasyncio.py:40-44 | a fade is 40 pwm_cycle calls |
| LedFadeFlash.FadeMirror | leds/led_fade_flash_uasyncio.py:40-44 | the duties are 1..20 then 20..1: the i-th equals the (39-i)-th and all lie in 1..20 |
| LedFadeFlash.PeriodsTiming | leds/led_fade_flash_uasyncio.py:40-44 | periods at duties in 0..20 last 20 ms each with the LED high for the sum of the duties |
| LedFadeFlash.SumRamp | leds/led_fade_flash_uasyncio.py:40-41 | the rising half's duties sum to k(k+1)/2 |
| LedFadeFlash.SumRampDown | leds/led_fade_flash_uasyncio.py:43-44 | the falling half's duties 20..i sum to (420 - (i-1)i)/2 |
| LedFadeFlash.FadeTiming | leds/led_fade_flash_uasyncio.py:35-44 | a fade lasts 800 ms with the LED high for 420 of them |
| LedFadeFlash.FadeEndsLow | leds/led_fade_flash_uasyncio.py:30-32 | a fade ends with the LED low whatever its level before, because its last period has duty 1 and writes its low phase last |
| LedFadeFlash.FadeStep | leds/led_fade_flash_uasyncio.py:40-44 | one more pwm_cycle(led, d, 1) extends the fade trace by the period at duty d |
| LedFadeFlash.FlashTiming | leds/led_fade_flash_uasyncio.py:47-55 | a flash is `delay` ms high then `delay` ms low (no time at all for a negative delay), and ends low |
| LedFadeFlash.Led.constructor | leds/led_fade_flash_uasyncio.py:61-62 | flash_count 0; the LED keeps its level |
| LedFadeFlash.Led.PwmCycle | leds/led_fade_flash_uasyncio.py:22-32 | appends exactly max(cycles, 0) periods at duty `duty` and leaves the level the periods leave |
| LedFadeFlash.Led.FadeLed | leds/led_fade_flash_uasyncio.py:35-44 | appends one period at each duty 1..20 then 20..1 and leaves the LED low |
| LedFadeFlash.Led.FlashLed | leds/led_fade_flash_uasyncio.py:47-55 | writes 1, sleeps delay, writes 0, sleeps delay |
| LedFadeFlash.Led.Step | leds/led_fade_flash_uasyncio.py:64-69 | one loop iteration: a 100 ms flash and one flash spent while flash_count > 0, otherwise a fade; flash_count stays non-negative; both branches leave the LED low |
| LedFadeFlash.Led.CheckButton | leds/led_fade_flash_uasyncio.py:77-80 | a true reading sets flash_count to 10, a false one leaves it |

## Left out

- Hardware: `Pin`, `Signal`, `Timer`, `delay` and the board configuration module are not part of this model. Row outputs and LEDs are levels in the model, and every reading (column levels, button) is a parameter. Inverted `Signal`s are modelled by their logical on/off state.
- The initial levels of the row outputs and LEDs are not set by the code, so the constructors take them as parameters.
- The 100 Hz timer and interrupt preemption: `TimerCallback` runs atomically. A tick that interrupts `get_key` between reading and clearing the slot can lose a key press, and that is not modelled.
- The uasyncio event loop: tasks are modelled one step at a time. A button poll that lands inside an update step's sleep has the same effect on `flash_count` as a poll just before that step when the step flashes, and as a poll just after it when the step runs the normal pattern; the model lets `CheckButton` and `Step` run in either order, which covers both. The button task's 100 ms sleep between polls is not recorded in the LED traces.
- KeypadAsync.Keypad.GetKey: on an empty queue the coroutine would suspend until a key arrives; the model returns None instead.
- KeypadAsync.Keypad.ScanPass: models one pass of `scan_coro`. The `while self.running` loop is the caller repeating passes while `running` holds, and `queue.put` never blocks (the queue size is recorded only).
- The `main`, `main_test` and `run` driver loops, `print`, and `micropython.alloc_emergency_exception_buf` are left out.
- keypad_lcd/keypad_lcd_uasyncio.py, keypad_lcd/wx_asyncio_test_1.py and hwapi/hwconfig_OLIMEX_E407.py are not part of this model.
