# go-sshd session layer, modelled in Dafny

This project models the session layer of a minimal SSH server written in Go (`server.go`). It covers four things:

- the decoding of channel-request payloads: the `exec` command, the `pty-req` terminal name and dimensions, and `parseDims`;
- the per-request dispatch and reply decision of a session channel, and the channel-type gate in front of it;
- the server's closed flag: `Close`, `isClosed`, the accept loop of `Serve`, and `ListenAndServe`;
- the exactly-once channel close that the two relays of an interactive shell share through a `sync.Once`.

The payloads are simplified forms of the SSH `string` and `uint32` encodings in section 5 of RFC 4251. They are applied to the request bodies of sections 6.2 (`pty-req`), 6.5 (`shell`/`exec`) and 6.7 (`window-change`) of RFC 4254. The server reads only byte 3 of a string's 4-byte length prefix. It computes the end offset `p[3]+4` in Go `byte` arithmetic, so the offset wraps modulo 256. Go checks slice and index bounds at run time. A short payload, a length longer than the payload, or a length byte of 252 or more therefore makes the code panic. The model states these cases as an explicit `Panicked` outcome, and a panic ends the request trace. The panic is never shown as a rejection, because the code does not reject these requests.

Files:

- `wrappers.dfy`: `Option`.
- `wire.dfy`: the decoders, the client-side encoders and the round-trip lemmas.
- `session.dfy`: `Dispatch`, the request-loop specification `Run`, the loop `ServeRequests`, shell selection, the channel gate `Admit` and the `handleChannels` loop.
- `server.dfy`: the `Server` class and its accept loop. The loop runs over a schedule of events.
- `teardown.dfy`: `sync.Once` as a class.

External effects are inputs or outputs of the model:

- Inputs: whether the operating system would start a request's process (`Request.startOk`), whether `Accept` and `pty.Open` succeed for a channel, the value of `$SHELL`, and the schedule of accept results and concurrent `Close` calls. A `shell` process also needs the channel's terminal to be open. `PtyRun` closes that terminal when it returns (server.go:263), so the model tracks it per channel (`TtyOpenAfter`).
- Outputs: action tags such as `SpawnExec`, `SpawnShell`, `ResizePty` and `Resize`. A reply is the `ok` passed to `req.Reply`.

The code behaves as follows in places where RFC 4254 or a reader might expect otherwise. The model follows the code:

- A malformed payload panics; the request is not rejected.
- A second `exec` on a session is not refused: it starts another process and is answered.
- A second `shell` is not refused either. It is answered true and starts two more relays, but its process cannot start: the first `PtyRun` already closed the channel's only terminal. `Session.AtMostOneShellStarts` proves this for every request sequence; `Session.SecondShellCannotStart` shows it on two requests.
- The pseudo-terminal is opened when the channel is accepted, not at `pty-req`. If it cannot be opened, the channel's requests are never read.
- The shell process is never waited on, and only the two relays trigger its teardown.
- A failed `exec` start sends no reply at all.
- Shell selection uses `$SHELL` or `sh`, and ignores the server's own shell path.

## Model

| member | source | states |
|---|---|---|
| `Wire.WrappingAdd` | server.go:161 | the Go `byte` sum `p[3]+4`: the plain sum below 256, the sum minus 256 from 256 on |
| `Wire.Uint32` | server.go:252-254 | `binary.BigEndian.Uint32` succeeds exactly on four or more bytes and yields the big-endian value of the first four; shorter input panics with an index error |
| `Wire.ParseDims` | server.go:252-256 | succeeds exactly when the buffer has at least 8 bytes, and then gives width = BE32 of bytes 0-3 and height = BE32 of bytes 4-7, ignoring the rest; otherwise an index panic |
| `Wire.LengthPrefixed` | server.go:161 | `p[4 : p[3]+4]` succeeds exactly when the payload has 4 bytes, `p[3] < 252` and `4 + p[3]` bytes exist, and then is `p[4 .. 4+p[3]]`; an index panic for fewer than 4 bytes, a slice panic otherwise |
| `Wire.ParsePtyReq` | server.go:219-221 | succeeds exactly when the name and 8 further bytes fit; the terminal name is `p[4 .. 4+n]`, and width and height are the two big-endian words right after it; later fields are ignored; a name panic is passed through and a short dimension tail is an index panic |
| `Wire.EncodeUint32` | server.go:252-256 | the 4-byte big-endian encoding of any uint32 is read back by BE32 to the same value |
| `Wire.EncodeString` | server.go:161 | a string with its full 4-byte length prefix puts the string right after byte 4 |
| `Wire.EncodeBE32` | server.go:252-256 | re-encoding the value read from any 4 bytes gives back those bytes, so BE32 and the encoding are inverse both ways |
| `Wire.LengthPrefixedIgnoresHighBytes` | server.go:161 | bytes 0-2 of the length prefix are never read: payloads that differ only there decode identically |
| `Wire.StringRoundTrip` | server.go:161 | a string of at most 251 bytes, encoded with a 4-byte prefix and followed by anything, decodes to exactly itself |
| `Wire.LongStringPanics` | server.go:161 | an encoded string of 252 to 255 bytes makes the wrapped slice end fall below 4: a slice panic |
| `Wire.LongStringTruncated` | server.go:161 | a string of 256 bytes or more whose length mod 256 is below 252 decodes to its first `|s| mod 256` bytes |
| `Wire.DimsRoundTrip` | server.go:252-256 | any pair of uint32 values encoded as 8 big-endian bytes, followed by anything, parses back to that pair |
| `Wire.PtyReqRoundTrip` | server.go:219-221 | a `pty-req` body built from a name of at most 251 bytes, two dimensions and any trailing fields decodes back to the name and dimensions |
| `Session.Dispatch` | server.go:157-234 | a request panics exactly when its payload is not decodable for its type, and otherwise gets the reply of the policy table (`window-change` none, `pty-req` true, `shell` true iff the payload is empty, `exec` true when started and none when its start fails, other types false) |
| `Session.DispatchActions` | server.go:159-227 | `shell` always attempts its process and starts relays, and the process starts only if the system allows it and the terminal is open; every handled `exec` runs `shell -c p[4..4+p[3]]` and starts exactly when the system allows, and only `exec` produces exec actions; `pty-req` and `window-change` resize to the decoded dimensions; other types do nothing |
| `Session.TtyOpenUntilShell` | server.go:261-263 | `TtyOpenAfter`, the deferred `tty.Close` of `PtyRun` over a channel's requests: the channel's terminal stays open exactly until the first `shell` request, whose `PtyRun` closes it whether or not its process started |
| `Session.Run` | server.go:155-235 | folds a channel's requests in order, one pass of the loop (`Extend`) per request, each seeing the terminal as the earlier ones left it; at most one reply per action and at most one action per request |
| `Session.RunAppend` | server.go:155-235 | handling `a` then `b`, with the terminal as `a` left it, equals handling `a + b`: replies and actions of `a` come first; after a panic in `a`, `b` has no effect |
| `Session.RunFollowsPolicy` | server.go:155-234 | the loop ends without a panic iff every payload is decodable, and then it has sent exactly the policy replies in request order and taken one action per request |
| `Session.WindowChangesAreSilent` | server.go:224-227 | any number of `window-change` requests produce no reply |
| `Session.SecondShellCannotStart` | server.go:183-263 | two argument-free `shell` requests are both answered true and both start relays, but only the first starts its process, even where the system could start both, because the first `PtyRun` closed the terminal (server.go:263) |
| `Session.AtMostOneShellStarts` | server.go:183-263 | for any requests, a channel starts at most one shell process, none after its terminal has closed, and none at all if it began closed |
| `Session.ExecRunsEncodedCommand` | server.go:159-172 | an `exec` whose command was properly encoded spawns `shell -c command` with exactly that command and replies true; if its start fails, nothing is replied |
| `Session.PtyReqDispatch` | server.go:214-223 | a `pty-req` body encoded from a short name and two dimensions resizes the terminal to them and is answered true |
| `Session.ResizeThenShell` | server.go:183-223 | a `pty-req` answered true, followed by an empty `shell` on the still-open terminal, gives replies `[true, true]`, the `pty-req`'s action and a shell spawn |
| `Session.PtyReqThenShell` | server.go:183-221 | `pty-req` with a terminal name and size followed by an empty `shell` gives replies `[true, true]`, a resize to that size and a shell spawn |
| `Session.ServeRequests` | server.go:155-235 | the imperative request loop produces exactly the trace `Run` specifies for a freshly opened terminal; it keeps the local `ok`, the `continue` of a failed exec and of `window-change`, the terminal's state and the stop on panic |
| `Session.StopsAtPanic` | server.go:155-235 | once a request panics, the trace is that of the requests up to it and no later request is handled |
| `Session.SelectShell` | server.go:147-151 | the shell is `$SHELL` when it is non-empty and `sh` otherwise, and is never empty |
| `Session.Admit` | server.go:125-145 | a channel is rejected iff its type is not `session`, with reason code 3 (unknown channel type) and message `unknown channel type: <type>`; it is served iff it is a session that was accepted and got a pseudo-terminal, with the selected shell |
| `Session.ChannelTrace` | server.go:125-154 | a channel that is not served, and in particular any non-session channel, gets no replies and no actions; a served one runs its requests, starting with the terminal open |
| `Session.HandleChannels` | server.go:118-238 | every new channel in turn gets exactly the admission `Admit` gives and the trace `ChannelTrace` gives |
| `ServerState.Drive` | server.go:83-94 | the accept loop over a schedule: a set closed flag stays set, counters never decrease, the only error returned wraps a failed `Accept`, and while still accepting every event was a connection or a `Close` |
| `ServerState.ClosedStaysClosed` | server.go:241-249 | once closed, the server stays closed under any further schedule, and any return from `Serve` is nil |
| `ServerState.CleanStopIffClosed` | server.go:83-91 | when `Serve` returns, it returns nil iff the server is closed, and otherwise an accept error |
| `ServerState.ShutdownIsClean` | server.go:83-91 | a `Close` that comes before the first failed `Accept` makes that failure a clean stop |
| `ServerState.FailureWithoutCloseIsError` | server.go:83-93 | with no `Close`, the first failed `Accept` ends `Serve` with that cause wrapped, after starting one handler goroutine per successful `Accept` |
| `ServerState.Server.constructor` | server.go:37-52 | a new server keeps its shell path, has no listener, is not closed and has started nothing |
| `ServerState.Server.IsClosed` | server.go:111-116 | returns the closed flag |
| `ServerState.Server.Close` | server.go:241-249 | always sets the flag; without a listener returns nil and touches nothing else; with one, closes it once and returns its error |
| `ServerState.Server.AcceptFailure` | server.go:85-90 | an accept error is a clean stop iff the server is closed, and otherwise the wrapped accept error |
| `ServerState.Server.Serve` | server.go:73-95 | a nil listener is refused before anything is changed; otherwise the listener is recorded and the accept loop behaves as `Drive` over the schedule; a closed server stays closed |
| `ServerState.Server.ListenAndServe` | server.go:56-71 | an empty address fails with no change, a failed bind fails with the address and cause, otherwise it serves |
| `ServerState.CloseRepeatedly` | server.go:241-249 | any number of `Close` calls leaves the server closed, and an accept failure afterwards is a clean stop |
| `Teardown.Once.constructor` | server.go:192 | a fresh guard has not run the close |
| `Teardown.Once.Do` | server.go:192-207 | the first `Do` closes the channel and records its caller; later calls change nothing; the close count is 1 afterwards |
| `Teardown.CloseOnce` | server.go:192-207 | for any order of relay completions, the channel is closed exactly once if any completion arrives, by the first one, and never otherwise |

## Left out

- TCP listening and accepting, the SSH handshake in `handleConn`, `ssh.DiscardRequests`, and the wire behaviour of `Reply`/`Reject`. These are network I/O and a foreign library. Their outcomes are inputs to the model. `req.Reply` sends nothing when the client did not ask for a reply; the model records the `ok` passed to it.
- `pty.Open`, `exec.Command`, `Start`, `Wait`, `PtyRun`'s process attributes, and the `io.Copy` relays. These are OS processes and blocking I/O. They appear only as action tags.
- Goroutine scheduling and the mutex. Requests of different channels run concurrently in the source; the model handles channels one after another. A panic in any request task ends the whole Go process, but the model records it only in that channel's trace. Which connection a handler serves is not modelled either: each handler goroutine reads the one `conn` variable that `Serve` reassigns on every `Accept` (server.go:81, 93), so which value it sees depends on scheduling; the model counts the handlers started, one per successful `Accept`.
- Go checks a slice's upper bound against its capacity rather than its length. The model assumes the payload's capacity equals its length.
- `SetWinSize` truncating both dimensions to 16 bits (sshd_posix.go:25-28) is not part of this model. Resize actions carry the 32-bit values that were parsed.
- sshd_windows.go, sshd_posix_old.go and bin/main.go (flag parsing, key loading, the password check) are not part of this model.
- `NewServer`'s panic when the configuration is not an `*ssh.ServerConfig`. The configuration is a library type.
- All logging, and the text of the error messages. Errors are kept as constructors that carry their causes.
