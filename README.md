# QuanTile core in Dafny

QuanTile chains small hardware "tiles" into a quantum-circuit simulator. Each tile
holds one single-qubit gate. It asks its upstream neighbour for a qubit state
(two Bloch-sphere angles, theta and phi) over a serial line, applies its gate to
that state and keeps the result. It hands that result to its downstream
neighbour when asked. A desktop monitor polls the last tile of each qubit and
draws the state. From the monitor the user can also reconfigure a tile's gate.

This project models the logic of that system and proves properties of it. The
modules follow the source files:

- `CommUtil` (`code/comm_util.py`, with `code/indicator.py`) covers the serial
  wire protocol.
  - Frames are the sync header `7F FF FF FF` followed by a 4-byte command.
  - The header search restarts on a mismatch. The bounded wait for buffered
    bytes never consumes input.
  - A state request is sent at most three times. A state response is
    accepted only when all 12 bytes are there and byte 0 is `0x81`.
  - The tile-side dispatcher answers state, type and type-change requests.
  - The monitor-side message decoder delivers state and type updates.
  - A serial port is a `Uart` object with a buffer of received bytes, the
    chunks that will arrive in later poll rounds, and a log of written bytes.
    Each 1 ms sleep of the wait loops is one poll round. The tile's 10 ms sleep
    between requests is ten rounds. The monitor's 25 ms timer tick touches no
    line.
- `QuTile` (`code/qu_tile.py` and its identical copy `qu_tile.py`) is the tile
  controller.
  - Its state is the gate type, name and operator triple, the published output
    state and the two running flags.
  - One step of the request loop and one step of the service loop are methods.
  - `TileMain` (`code/main.py`) resolves the saved `gate.cfg` text to a gate at
    startup.
- `QuStates` (`code/qu_states.py`) and `MpyEnum` (`code/mpy_enum.py`) cover the
  gate catalogue and qubit states.
  - The catalogue is the `GateTypes` code table and the `GateOperators` matrix
    table, both on the ordered enum with first-match `name(value)`.
  - Angles are canonicalised on construction. The single-qubit `rotate` and
    `operate` run on one state.
  - The `QuStates` register keeps its qubits in a list shared by all
    instances. Its tensor product and its write-back work on that list.
- `PseudoNumpy` (`code/pseudo_numpy.py`) holds the MicroPython kernels.
  - `mat_vec_mul` and the four shape cases of `kronecker_product` fill zero
    arrays in place.
  - They are generic over the scalar ring.
- `StateVectorPlot` (`code/state_vector_plot.py`) holds the monitor's non-GUI
  logic.
  - COM-port discovery and per-qubit port naming.
  - The polling schedule with its saturating miss counters.
  - The per-sphere display lists, shared by all plots.
  - The multi-qubit gating of gate-change requests.
- `ImageCache` (`code/ImageCache.py`) is a memo of gate images whose failed
  loads are not stored.
- `QiskitAdapter` (`code/qiskit_adapter.py`) holds circuits and registers. Their
  lists are shared by all instances.
- `Wrappers` (Option/Result) and `Text` (decimal strings, ASCII upper-casing,
  `str.find`, `str.join`) are helpers.

These parts of the system become parameters of the model:

- Floating-point trigonometry and complex arithmetic are a `Numerics` record of
  functions. Matrix entries are a symbolic scalar algebra.
- IEEE 754 binary32 packing of the angles is a `FloatCodec` record. The pair
  `pack`/`unpack` is assumed to round-trip only where a lemma says so.
- The bytes a serial port will receive are fixed in advance, as the arrival
  schedule of the `Uart` object.
- The contents of `gate.cfg` are a `ConfigFile` object, or an optional string at
  startup.
- Image files are a function from file name to load outcome.

The model keeps these behaviours of the code as they are:

- The angle loops of `QuantumBitState` (code/qu_states.py:161-164), run on
  exact reals, stop once phi is at most 2π. So phi may equal 2π after
  canonicalisation (`QuStates.PhiMayBeTwoPi`).
- The single-qubit part of the gate table (code/qu_states.py:82-120) has
  thirteen entries, IDENTITY through TWIRL.
- The gate table holds SWAP with its repeated row (code/qu_states.py:131-135).
  Every tile and register that installs SWAP gets that matrix. See "## Findings".
- On a tile, `showInvalidInput` raises NameError (code/indicator.py:30-32). So
  a state reply under the wrong opcode makes `requestInputState`, and with it
  one pass of the tile's request loop, raise. See "## Findings".
- Every `Comm` shares one `Indicator`, the class attribute at
  code/comm_util.py:70.

## Model

| member | source | states |
|---|---|---|
| Text.NatToString | code/state_vector_plot.py:302 | `str(n)` of a natural is a non-empty string of decimal digits, one digit long exactly when n < 10 |
| Text.DigitsValueOfNatToString | code/state_vector_plot.py:278 | reading back the digits `str` wrote gives the number again |
| Text.ParseIntOfNatToString | code/state_vector_plot.py:278 | `int()` over the text `str(n)` yields n, so a COM number written and parsed survives |
| Text.NatToStringInjective | code/state_vector_plot.py:302 | different naturals have different decimal texts |
| Text.IntToStringInjective | code/state_vector_plot.py:302 | different integers, negative ones included, have different texts |
| Text.IntToStringSign | code/state_vector_plot.py:302 | the text of an integer starts with '-' exactly when it is negative |
| Text.UpperOfUpper | code/main.py:33 | upper-casing a name without lower-case letters leaves it unchanged |
| Text.FindFrom | code/state_vector_plot.py:276 | `find` returns -1 when the substring occurs nowhere at or after k, otherwise the least such position |
| MpyEnum.Lookup | code/mpy_enum.py:40-41 | a name lookup fails exactly when no member has that name; otherwise it returns a member with that name, the only one when names are distinct |
| MpyEnum.NameOf | code/mpy_enum.py:34-38 | `name(v)` is None exactly when no member has value v; otherwise it is the name of the first member, in insertion order, with value v |
| MpyEnum.ValueOfNameOf | code/mpy_enum.py:34-41 | if `name(v)` returns n then `value(n)` is v |
| MpyEnum.NameOfValueOf | code/mpy_enum.py:34-41 | with distinct names and values, `name(value(n))` is n |
| MpyEnum.EnumNameRoundTrip | code/mpy_enum.py:10-41 | on an enum object built from distinct keywords, `value(name(v))` is v |
| MpyEnum.Enum.constructor | code/mpy_enum.py:10-15 | each keyword becomes a member holding that name and value, in keyword order |
| PseudoNumpy.MatVecMul | code/pseudo_numpy.py:47-62 | matrix times vector has one entry per row, entry i being the sum of a[i][k]·b[k]; matrix times matrix has shape rows(a) × cols(b), entry (i,j) being the sum of a[i][k]·b[k][j] |
| PseudoNumpy.MatMulRow | code/pseudo_numpy.py:57-61 | filling row i of the product sets every entry of that row to its dot product and no other row changes |
| PseudoNumpy.KronVVAt | code/pseudo_numpy.py:101-106 | the Kronecker product of vectors of lengths m and p holds a[i]·b[r] at i·p+r |
| PseudoNumpy.KronMMAt | code/pseudo_numpy.py:79-86 | the product of an m×n and a p×q matrix holds a[i][j]·b[r][s] at (i·p+r, j·q+s) |
| PseudoNumpy.KronMVAt | code/pseudo_numpy.py:87-93 | matrix ⊗ vector holds a[i][j]·b[r] at (i·p+r, j) |
| PseudoNumpy.KronVMAt | code/pseudo_numpy.py:95-100 | vector ⊗ matrix holds a[i]·b[r][c] at (i·p+r, c) |
| PseudoNumpy.KronMMCovers | code/pseudo_numpy.py:79-86 | every entry of the (m·p)×(n·q) result lies in exactly one block, the one of a[x div p][y div q], so the blocks cover the zero array |
| PseudoNumpy.KroneckerProduct | code/pseudo_numpy.py:75-107 | the result of the explicit-loop branch is the Kronecker product of its arguments in each of the four shape cases, and is well shaped |
| PseudoNumpy.KronVecVec | code/pseudo_numpy.py:101-106 | filling the zero vector block by block gives exactly the vector Kronecker product |
| PseudoNumpy.KronVecMat | code/pseudo_numpy.py:95-100 | filling the zero array block by block gives exactly the vector ⊗ matrix product |
| PseudoNumpy.KronMatVec | code/pseudo_numpy.py:87-93 | filling the zero array column block by column block gives exactly the matrix ⊗ vector product |
| PseudoNumpy.KronMatMat | code/pseudo_numpy.py:79-86 | filling the zero array block by block gives exactly the matrix ⊗ matrix product |
| PseudoNumpy.AssignSlice | code/pseudo_numpy.py:106 | slice assignment writes the block into its range and leaves every entry outside the range unchanged |
| PseudoNumpy.AssignBlock | code/pseudo_numpy.py:86 | 2-D slice assignment writes the block into its rectangle and leaves every other entry unchanged |
| QuStates.GateTypeCodesDistinct | code/qu_states.py:57-76 | gate names and wire codes are pairwise distinct and every code fits in one byte |
| QuStates.GateTypeLookupInverts | code/qu_states.py:57-76 | for the gate table, `value(n) == v` exactly when `name(v) == n`, so code-to-name lookup is unambiguous |
| QuStates.GateTypeByName | code/qu_states.py:57-76 | looking up a table entry's name gives back that entry's code |
| QuStates.OperatorNamesFollowTypes | code/qu_states.py:57-145 | the operator table lists the gate types in the same order, minus UNDEFINED |
| QuStates.OperatorForEveryType | code/qu_states.py:57-145 | a gate type has a same-named operator exactly when it is not UNDEFINED |
| QuStates.OperatorShapes | code/qu_states.py:57-145 | operator i is named after gate type i + 1 and is a square matrix of side 2^k, where k = code div 0x40 + 1 is the number of qubits that gate code encodes |
| QuStates.SingleQubitSizes | code/qu_states.py:82-120 | the thirteen single-qubit operators are 2×2 |
| QuStates.TwoQubitSizes | code/qu_states.py:121-135 | CONTROLLED_NOT, CONTROLLED_Z and SWAP are 4×4 |
| QuStates.SwapAsWrittenDoesNotSwap | code/qu_states.py:131-135 | the gate table's SWAP operator is the matrix as written, and it maps \|01⟩ to \|01⟩+\|10⟩ rather than to \|10⟩ |
| QuStates.SwapExchanges | code/qu_states.py:131-135 | the corrected SWAP matrix maps a ⊗ b to b ⊗ a for all 2-vectors a and b |
| QuStates.Wrap | code/qu_states.py:153-156 | the wrapping loops leave an angle in [0, 2π] that differs from the input by whole turns, and leave an angle already in range unchanged |
| QuStates.Canonical | code/qu_states.py:153-164 | the stored angles satisfy 0 ≤ theta ≤ π and 0 ≤ phi ≤ 2π; angles already in range are kept; otherwise they equal the input up to whole turns, or theta negated with π added to phi |
| QuStates.CanonicalIdempotent | code/qu_states.py:153-164 | canonicalising twice equals canonicalising once |
| QuStates.PhiMayBeTwoPi | code/qu_states.py:161-164 | phi = 2π survives canonicalisation |
| QuStates.CanonicalAngles | code/qu_states.py:153-164 | the constructor's wrap, mirror and wrap loops compute the canonical angles |
| QuStates.WrapAngle | code/qu_states.py:153-156 | one pair of wrapping loops computes the wrapped angle |
| QuStates.Derived | code/qu_states.py:183-199 | the angles set from amplitudes keep the derived theta and take phi as 0 when theta is 0 |
| QuStates.QuantumBitState.constructor | code/qu_states.py:149-169 | a new qubit state holds the canonical form of the given angles, 0.0 each by default |
| QuStates.QuantumBitState.SetBlochSphereState | code/qu_states.py:174-176 | the angles are stored as given |
| QuStates.QuantumBitState.SetStandardBasisState | code/qu_states.py:183-199 | the angles become those derived from the amplitudes |
| QuStates.QuantumBitState.Rotate | code/qu_states.py:206-217 | the product of the matrix and the current basis vector is returned; the angles change only when update is set |
| QuStates.QuantumBitState.Operate | code/qu_states.py:234-238 | succeeds exactly for a 2×2 operator, otherwise raises and leaves the state; with update the angles are re-derived from the product |
| QuStates.TensorProduct | code/qu_states.py:274-277 | the tensor product of n two-entry rows has 2^n entries, and none exists for an empty list |
| QuStates.BasisRows | code/qu_states.py:268-272 | one basis vector per qubit of the register, in order |
| QuStates.QuStates.New | code/qu_states.py:247-257 | with the defaults None, 1, 0.0 and 0.0, raises when num_bits ≤ 0 or when an initial state is not of length 2, naming the first such state; otherwise appends one canonical qubit per entry to the shared list and keeps the entries already there |
| QuStates.QuStates.StandardBasisState | code/qu_states.py:268-272 | the basis vectors of all qubits in the shared list |
| QuStates.QuStates.OperateMultiQu | code/qu_states.py:282-296 | succeeds only for an operator with 2^n rows; returns the tensor vector before the operator; qubit i is rewritten from entries 2i and 2i+1 of the product; a failure leaves every qubit as it was |
| QuStates.QuStates.WriteBack | code/qu_states.py:294-295 | qubit i takes the angles derived from entries 2i and 2i+1 |
| CommUtil.SleepKeepsStream | code/comm_util.py:145-146 | a sleep only moves the next arriving chunk into the buffer: the bytes the line will deliver are the same |
| CommUtil.MatchLengthIsCommonPrefix | code/comm_util.py:132-142 | the bytes matched in one round are the longest common prefix of the input and the pattern |
| CommUtil.RoundReadsPrefix | code/comm_util.py:132-142 | one round reads a prefix of the buffer and matches exactly when that prefix is the whole pattern |
| CommUtil.WaitPatternKeepsStream | code/comm_util.py:129-150 | waiting for a pattern consumes a prefix of the stream and nothing else |
| CommUtil.WaitPatternEnds | code/comm_util.py:129-150 | with a timeout the wait never hangs, and with timeout 0 it never times out |
| CommUtil.WaitPatternMatchEndsOnPattern | code/comm_util.py:129-150 | on a match the bytes consumed end with the full pattern |
| CommUtil.ReadRound | code/comm_util.py:132-142 | the inner loop reads one round as the round function describes |
| CommUtil.WaitForPattern | code/comm_util.py:129-150 | the method's result and the port afterwards are those of the waiting function, and nothing is written |
| CommUtil.SyncedFrameIsFound | code/comm_util.py:129-150 | a buffer starting with the header matches at once and leaves the bytes after it |
| CommUtil.NoHeaderAmongFFs | code/comm_util.py:129-150 | a line carrying only `FF` bytes never matches |
| CommUtil.StrayByteHidesHeader | code/comm_util.py:132-142 | a stray `7F` right before a real header makes the search miss it |
| CommUtil.BytesWaitKeepsStream | code/comm_util.py:291-305 | waiting for bytes never reads any |
| CommUtil.BytesWaitSucceedsIff | code/comm_util.py:291-305 | the wait succeeds exactly when enough bytes are buffered by the last check before the timeout |
| CommUtil.WaitForBytes | code/comm_util.py:291-305 | the method's result and the port afterwards are those of the waiting function, and nothing is written |
| CommUtil.TypeName | code/comm_util.py:364-373 | the resolved name is UNDEFINED or the name of a gate-table entry with that code |
| CommUtil.ResolveTypeName | code/comm_util.py:367-373 | the search loop returns the resolved name |
| CommUtil.Indicator.Show | code/indicator.py:18-32 | shows the requested signal: open and valid as written, invalid as intended |
| CommUtil.Indicator.ShowInvalidInput | code/indicator.py:30-32 | as written: raises NameError and keeps the colour where there is an LED, asks for red otherwise |
| CommUtil.ShowInvalidInputAsWritten | code/indicator.py:30-32 | NameError exactly where there is an LED, otherwise the invalid-input colour |
| CommUtil.DecodeStateResponse | code/comm_util.py:272-283 | a response is valid exactly when byte 0 is `0x81`; otherwise the angles stay (0.0, 0.0) and the input is marked invalid |
| CommUtil.WrongReplyRaisesOnTile | code/comm_util.py:239-288 | after one request, a 12-byte reply under another opcode makes `requestInputState` raise NameError, with the LED unchanged, where there is an LED; without an LED it asks for red and returns (0.0, 0.0) |
| CommUtil.SyncAttempts | code/comm_util.py:242-258 | at least one and at most three state requests are sent, exactly three when no header comes back |
| CommUtil.ResponseOutcome | code/comm_util.py:264-285 | after a header, an error only where there is an LED, as NameError with the signal unchanged; a non-valid signal without an error means (0.0, 0.0) |
| CommUtil.ShownResponse | code/comm_util.py:272-283 | a 12-byte reply raises exactly where there is an LED and byte 0 is not `0x81`, as NameError with the signal kept; otherwise the decoded angles and signal |
| CommUtil.RequestOutcome | code/comm_util.py:239-288 | one to three requests; an error is either ConnectionError after three requests, only with raiseException set and the input shown open, or NameError from the indicator, only where there is an LED; a non-valid signal without an error means (0.0, 0.0) |
| CommUtil.ServiceReceive | code/comm_util.py:318-326 | a received command is 4 bytes long |
| CommUtil.MessageReceive | code/comm_util.py:212-216 | a received message head is 4 bytes long |
| CommUtil.PayloadReceive | code/comm_util.py:219-220 | the payload read is at most 8 bytes |
| CommUtil.ConfigFile.Write | code/comm_util.py:374-375 | `gate.cfg` afterwards holds exactly the written name |
| CommUtil.Comm.constructor | code/comm_util.py:70-114 | a new link holds the given ports, the shared indicator and no callbacks |
| CommUtil.Comm.SetStateRequestCallback | code/comm_util.py:188-189 | registers the state hook and changes nothing else |
| CommUtil.Comm.SetComponentTypeRequestCallback | code/comm_util.py:119-120 | registers the type hook and changes nothing else |
| CommUtil.Comm.SetReplaceOperatorCallback | code/comm_util.py:125-126 | registers the replace hook and changes nothing else |
| CommUtil.Comm.SetUpdateInputStateCallback | code/comm_util.py:195-197 | stores the plot port for state updates and changes nothing else |
| CommUtil.Comm.SetUpdateGateTypeCallback | code/comm_util.py:203-205 | stores the plot port for type updates and changes nothing else |
| CommUtil.Comm.SendSync | code/comm_util.py:152-153 | writes exactly `7F FF FF FF` |
| CommUtil.Comm.SendStateRequest | code/comm_util.py:155-163 | writes the header then `01 01 01 00` |
| CommUtil.Comm.SendComponentTypeRequest | code/comm_util.py:165-173 | writes the header then `02 00 00 00` |
| CommUtil.Comm.SendComponentTypeChangeRequest | code/comm_util.py:175-183 | writes the header then `03 id 00 00` exactly when 0 ≤ id < 256; otherwise raises ValueError after the header |
| CommUtil.Comm.SendFloat | code/comm_util.py:308-310 | writes the packed float |
| CommUtil.Comm.RequestOnce | code/comm_util.py:246-249 | sends one state request and waits for the header |
| CommUtil.Comm.Synchronise | code/comm_util.py:242-258 | the retry loop ends as the attempt count says, having written one state request per attempt |
| CommUtil.Comm.ShowResponse | code/comm_util.py:272-283 | decodes the 12 bytes and drives the indicator as the shown-response function says |
| CommUtil.Comm.ReadStateResponse | code/comm_util.py:264-285 | result, indicator and port follow the response outcome, including the NameError raised on a tile, and nothing is written |
| CommUtil.Comm.RequestInputState | code/comm_util.py:239-288 | result, indicator and port follow the request outcome, with one state request written per attempt |
| CommUtil.Comm.ReceiveRequest | code/comm_util.py:318-326 | reads a request as the receive function says |
| CommUtil.Comm.Answer | code/comm_util.py:328-378 | writes the dispatcher's reply, saves the resolved name to `gate.cfg` only for a type change, and returns the name to install |
| CommUtil.Comm.ServiceRequest | code/comm_util.py:314-378 | one service pass: the port, reply, config file and result follow the service outcome |
| CommUtil.Comm.ReceiveMessage | code/comm_util.py:212-216 | reads a message head as the receive function says |
| CommUtil.Comm.ReceivePayload | code/comm_util.py:219-220 | reads the payload as the payload function says |
| CommUtil.Comm.HandleStateResponse | code/comm_util.py:218-229 | decodes a state response and updates the indicator as the state outcome says |
| CommUtil.Comm.MessageServiceStep | code/comm_util.py:209-234 | one pass of the message service routine follows the message outcome |
| CommUtil.Comm.Stop | code/comm_util.py:380-381 | clears the running flag and nothing else |
| CommUtil.RequestIsServed | code/comm_util.py:314-378 | a buffered header plus command is answered as the dispatcher says, consuming exactly that frame |
| CommUtil.ServedStateIsReceived | code/comm_util.py:239-288 | a tile's state reply, read by its downstream neighbour, yields the same angles after one request, with the input shown valid |
| CommUtil.ServedStateIsDelivered | code/comm_util.py:209-229 | a tile's state reply, read by the monitor, is delivered as a state update for that plot port |
| CommUtil.ServedTypeIsDelivered | code/comm_util.py:231-234 | a tile's type reply, read by the monitor, is delivered as that gate code for that plot port |
| QuTile.InitialOutState | code/qu_tile.py:37 | the class attribute `outState`, built with the default angles, is \|0⟩: theta and phi 0 |
| QuTile.Pause | code/qu_tile.py:86 | sleeping lets the scheduled bytes arrive and writes nothing |
| QuTile.QuTile.constructor | code/qu_tile.py:40-60 | type, name and operator come from the same gate; the shared link and output state are kept; both flags are clear |
| QuTile.QuTile.GetOperator | code/qu_tile.py:62-63 | returns the installed operator |
| QuTile.QuTile.SetOperator | code/qu_tile.py:65-66 | replaces only the operator |
| QuTile.QuTile.ReplaceOperator | code/qu_tile.py:56-59 | succeeds exactly when the name has an operator and then makes type, name and operator agree on it; otherwise raises before changing anything |
| QuTile.QuTile.Publish | code/qu_tile.py:81-83 | a fresh state operated on by the current operator is published only when the operator is 2×2; otherwise the old output stays |
| QuTile.QuTile.UpdateStateStep | code/qu_tile.py:75-86 | one request step: request the input, build the canonical state, operate, publish, sleep; a NameError from the indicator or a non-2×2 operator raises and publishes nothing |
| QuTile.QuTile.ServiceStep | code/qu_tile.py:89-92 | one service step answers with the current state and type and, on a type change, installs the saved name |
| QuTile.QuTile.Start | code/qu_tile.py:95-112 | sets the flags as the start outcome says |
| QuTile.QuTile.Stop | code/qu_tile.py:115-117 | clears both running flags and nothing else |
| QuTile.StartTwice | code/qu_tile.py:100-106 | starting sets the request flag; a second start raises RuntimeError exactly on CPython |
| QuTile.NewTile | code/qu_tile.py:40-60 | building a tile succeeds exactly when the gate has an operator and then registers all three hooks on the shared link |
| QuTile.OperatorHasGateType | code/qu_tile.py:56-59 | every operator name is also a gate-type name |
| QuTile.UndefinedHasNoOperator | code/qu_tile.py:43 | UNDEFINED has no operator, so a tile cannot be built for it |
| QuTile.StepSucceedsIffSingleQubit | code/qu_tile.py:82 | the installed operator is 2×2 exactly when its gate code is below `0x40`, so multi-qubit gates make the request step fail |
| TileMain.StartupGateBuilds | code/main.py:28-38 | whatever `gate.cfg` holds, startup picks a gate of the table that has an operator |
| TileMain.StartupGateOfName | code/main.py:32-38 | a file whose upper-cased text names a gate selects that gate, UNDEFINED falling back to IDENTITY |
| TileMain.SavedGateIsRestored | code/main.py:28-38 | the name the type-change handler saves for a known code other than 0 is read back as that same gate; anything else restarts as IDENTITY |
| TileMain.TypeNameIsUndefined | code/comm_util.py:364-373 | the handler saves UNDEFINED exactly for an unknown code or code 0 |
| TileMain.NameIsUpper | code/qu_states.py:57-76 | every gate name is already upper case, so upper-casing the file text cannot turn it into another gate |
| TileMain.Boot | code/main.py:28-41 | the startup gate is installed consistently and all hooks are registered |
| StateVectorPlot.LeastPortIsLeast | code/state_vector_plot.py:270-281 | the search raises exactly when some matching port name has a bad number, finds nothing exactly when no port matches, and otherwise returns the least COM number among the matching ports |
| StateVectorPlot.WinInitCommPort | code/state_vector_plot.py:270-281 | the running-minimum loop returns the least port |
| StateVectorPlot.PortNamesDistinct | code/state_vector_plot.py:301-302 | different qubits are given different port names |
| StateVectorPlot.OpenPorts | code/state_vector_plot.py:294-308 | with communication required, no base port raises; otherwise qubit i is given COM(base+4−i−1) |
| StateVectorPlot.StateVectorBlochPlot.constructor | code/state_vector_plot.py:121-180 | appends one entry per qubit to the shared lists, then blanks the first n entries; all types UNDEFINED; multi-qubit disabled |
| StateVectorPlot.StateVectorBlochPlot.UpdateStateVector | code/state_vector_plot.py:258-261 | stores the vector and shows sphere i, leaving the other spheres |
| StateVectorPlot.StateVectorBlochPlot.ZeroVector | code/state_vector_plot.py:263-266 | stores NaN and hides sphere i, leaving the other spheres |
| StateVectorPlot.StateVectorBlochPlot.ToggleMultiQubit | code/state_vector_plot.py:169-175 | flips the multi-qubit switch |
| StateVectorPlot.NewPlot | code/state_vector_plot.py:121-123 | a plot is made exactly for 1 to 4 qubits; otherwise ValueError with the shared lists unchanged |
| StateVectorPlot.TicksExclusive | code/state_vector_plot.py:363-371 | no tick sends both requests, and state ticks alternate with ticks that send none |
| StateVectorPlot.PortTickBounds | code/state_vector_plot.py:362-376 | one tick writes at most one request, counts one miss below each cap, and at a cap blanks the sphere or clears the combo instead; counters stay within 5 and 3 |
| StateVectorPlot.HiddenStays | code/state_vector_plot.py:363-376 | without responses a hidden sphere stays hidden |
| StateVectorPlot.MissStep | code/state_vector_plot.py:363-368 | one tick raises the state miss count on a state tick below the cap and hides the sphere at the cap |
| StateVectorPlot.SilenceHidesSphere | code/state_vector_plot.py:359-386 | after about twice (6 − misses) silent ticks the sphere is hidden |
| StateVectorPlot.Monitor.constructor | code/state_vector_plot.py:287-289 | all miss counters start at 0 and nothing has been sent |
| StateVectorPlot.Monitor.TickPort | code/state_vector_plot.py:361-383 | one port's part of a tick follows the tick function and leaves the other ports alone |
| StateVectorPlot.Monitor.SetDefaultThetaPhi | code/state_vector_plot.py:312-319 | blanks sphere i and sets its type to UNDEFINED |
| StateVectorPlot.Monitor.Tick | code/state_vector_plot.py:359-386 | every port advances by the tick function and the tick counter by one |
| StateVectorPlot.Monitor.InputStateArrived | code/state_vector_plot.py:322-324 | a state response resets the miss count and shows the received angles |
| StateVectorPlot.Monitor.GateTypeArrived | code/state_vector_plot.py:328-345 | a type response resets the type miss count; a new known code sets the combo to its name, an unchanged code changes nothing else |
| StateVectorPlot.Monitor.Select | code/state_vector_plot.py:404-420 | with multi-qubit disabled a multi-qubit gate sends nothing and sets the type to UNDEFINED; otherwise a known gate sends one change request with its code, an unknown one raises |
| StateVectorPlot.GateCodeIsByte | code/state_vector_plot.py:418-420 | every selectable gate code fits in the change request's byte |
| StateVectorPlot.MultiQubitGatesAreWide | code/state_vector_plot.py:395 | the four gated names are exactly the gates whose code is at least `0x40` |
| ImageCache.HitIgnoresFiles | code/ImageCache.py:28-29 | a hit returns the stored image whatever the files hold |
| ImageCache.FetchOnlyAdds | code/ImageCache.py:27-37 | a lookup adds at most the requested name, keeps every stored image, and returns an image exactly when the name ends up stored |
| ImageCache.FetchTwice | code/ImageCache.py:27-35 | once an image is loaded, asking again returns the same image and leaves the cache alone |
| ImageCache.MissRetries | code/ImageCache.py:36-37 | a missing file is not remembered, so a later call loads the file |
| ImageCache.ImageCache.constructor | code/ImageCache.py:23-25 | both caches start empty |
| ImageCache.ImageCache.GetSymbolImage | code/ImageCache.py:27-37 | looks up `images/<name>-symbol.gif` in the symbol cache and leaves the matrix cache alone |
| ImageCache.ImageCache.GetMatrixImage | code/ImageCache.py:39-49 | looks up `images/<name>-matrix.gif` in the matrix cache and leaves the symbol cache alone |
| QiskitAdapter.QuantumRegister.constructor | code/qiskit_adapter.py:49-52 | appends n entries to the shared qubit list and stores the name, 'q' when none is given |
| QiskitAdapter.Texts | code/qiskit_adapter.py:57-58 | each register prints as `QuantumRegister(<qubits in the shared list>, '<name>')` |
| QiskitAdapter.QuantumCircuit.AddRegister | code/qiskit_adapter.py:31-32 | appends the register to the shared list and changes nothing else |
| QiskitAdapter.QuantumCircuit.Str | code/qiskit_adapter.py:34-41 | the loop builds "[" + the register texts joined by ", " + "]" |
| QiskitAdapter.JoinSnoc | code/qiskit_adapter.py:36-39 | joining one more part adds the separator only when parts came before |
| QiskitAdapter.TwoRegisters | code/qiskit_adapter.py:46-55 | because the qubit list is shared, both registers count the qubits of every register created so far; a register made without a name is 'q' |

## Left out

- Floating-point numerics are left out. Trigonometry, acos, complex phase and normalisation (`getStandardBasisState`, `getVector`, the rotation entries, `sphericalToCartesian`) are functions of a `Numerics` parameter. Matrix entries are symbols. The values of these functions are not modelled.
- The binary32 packing of angles (`struct`/`ustruct`) is left out. It is a `FloatCodec` parameter; the end-to-end lemmas assume it round-trips for the angles sent.
- QuStates.QuantumBitState.constructor: the angle loops run on exact reals, where adding 2π always makes progress. The source's angles are floats; an infinite angle, or one so large that ±2π rounds back to the same float (from 2^56 in binary64), keeps the loops running forever, and a NaN skips them and is stored as it is. These cases are not modelled.
- QuStates.CanonicalAngles: proved to terminate on every real; the non-terminating float inputs above are not modelled.
- QuStates.WrapAngle: proved to terminate on every real; an infinite or absorbed float angle, on which the source loops forever, is not modelled.
- Time is not modelled. Sleeps are poll rounds and timeouts are counts of rounds. The float accumulation of `timeLapse` is not modelled.
- Threads, locks and concurrent reads of the output state are left out. The infinite loops (`updateStateRoutine`, `serviceThread`, `messageServiceRoutine`, `requestRoutine`) are modelled one pass at a time.
- QuTile.QuTile.Start: on MicroPython `start` never returns, because it runs the service loop. The model only sets the flags.
- The serial hardware is a byte queue. Its bytes and their arrival schedule are fixed in advance rather than reacting to the requests sent. pyserial read timeouts and `SerialException` handling (`exit(1)`) are not modelled.
- CommUtil.WaitForPattern: with timeout 0 and no byte ever arriving, the source spins forever. The model returns a `Hang` outcome instead.
- CommUtil.Comm.constructor: the RuntimeError for an unknown platform and the start of the message thread are not modelled.
- CommUtil.Comm.ServiceRequest: after `waitForBytes` the source tests `available() >= 4`, not the wait's result. This is modelled as written; it only matters when bytes arrive after the wait.
- The CPython branches that call `np.matmul` and `np.kron` are left out. The model is the explicit-loop branch.
- PseudoNumpy.MatVecMul: it requires shapes that fit. The IndexError for mismatched shapes is not modelled.
- PseudoNumpy.KronMatVec: the column slice of a 1-D vector is filled as a column. Array broadcasting rules are not modelled.
- `eval` name resolution is a table lookup. Accepting arbitrary expressions and surrounding whitespace in `gate.cfg` is not modelled.
- `int()` on a COM suffix accepts only decimal digits. Signs, whitespace and underscores are not modelled.
- The `QuTile` class attribute `comm` is shared, so every new tile re-registers the hooks. Which tile owns the callbacks is not modelled beyond that.
- TileMain.Boot: main.py prints that it falls back to HADAMARD but installs IDENTITY. Printed text is not modelled.
- The GUI is left out: matplotlib, tkinter widgets, image labels, the information dialog and the animation (`getNextPoint`, `_redraw`).
- LED colours are a `Signal` value. `led.py` and the LED scripts are left out.
- ImageCache.ImageCache.GetSymbolImage: Tk reports a missing image file with its own error, not FileNotFoundError. The model keeps the source's distinction as a separate outcome that propagates.
- StateVectorPlot.Monitor.InputStateArrived: the link from a decoded state update to the right plot port is by index, not through a stored callback.
- code/variant.py, code/led.py, code/test_led.py and test_led.py are not part of this model.

## Findings

| source | as written | input that shows it | evidently intended | confidence | as-written member | corrected member |
|---|---|---|---|---|---|---|
| code/qu_states.py:131-135 | the SWAP matrix repeats row `[0, 1, 0, 0]`, so it is not a permutation | \|01⟩ = `[0, 1, 0, 0]` maps to `[0, 1, 1, 0]` | exchange the two qubits, \|01⟩ ↔ \|10⟩ | not executed | QuStates.SwapAsWrittenDoesNotSwap | QuStates.SwapExchanges |
| code/indicator.py:30-32 | `showInvalidInput` calls `led.setColor`, but `led` is not defined in that scope (it should be `self.led`) | a 12-byte reply whose byte 0 is not `0x81`, on a tile with an LED | show the invalid-input colour | not executed | CommUtil.WrongReplyRaisesOnTile | CommUtil.Indicator.Show |
