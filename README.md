# cpuburn: a verified model of the per-thread Mersenne Twister and its CPU burner

The CPU burner loads every core it is given with a fixed duty cycle.
Each worker thread draws batches of 10000 pseudo-random words from its own
MT19937 generator and checks the clock after each batch. Once the elapsed
time reaches the busy budget `tloop`, the worker sleeps for `twait`, which is
100 ms minus the busy budget. The generator is the reference `mt19937ar` code of Matsumoto
and Nishimura, modified to keep one state vector `mt[tid]` and one read
index `mti[tid]` per thread slot. The companion power sampler `svcur`
reads 16-bit voltage and current words from a power monitor over SMBus and
converts them to millivolts and microamperes.

The project has five modules:

- `Mt` (`mt_spec.dfy`): the value-level specification of one generator slot.
  - the seeding recurrence of `init_genrand`;
  - the two mixing passes of `init_by_array`, with their state cursor `i` and key cursor `j`;
  - the in-place refill, the tempering and its inverse;
  - `genrand_int32` as a function from state to word and next state, and facts about repeated calls.
- `MtBanks` (`mt_bank.dfy`): the generator as the C code keeps it, updated in place.
  - The class `MtSlot` holds an `array<bv32>` of 624 words and the index.
  - The class `MtBank` holds the 32 distinct slots.
  - Every loop of `init_genrand`, `init_by_array` and the refill is a `while` loop proved against the functions of `Mt`.
  - Every bank operation leaves the other slots unchanged.
- `Clock` (`clock.dfy`): `usecdiff`, with C's truncating division written out.
- `Burner` (`burner.dfy`):
  - the settings checks and the duty-cycle budgets of `main`;
  - seeding every worker's slot with the same key;
  - one burst of a worker against a caller-supplied sequence of clock readings;
  - the `total_stats` sum.
- `Svcur` (`svcur.dfy`):
  - `to12bit`;
  - the masking in `i2c_smbus_read_word_data`;
  - the integer millivolt and microampere conversions;
  - the integer part of `process`, with each bus status as a parameter.

The code only refuses thread counts above 32. It accepts zero or negative
counts, which then start no worker (`Burner.Configure`).

## Model

| member | source | states |
|---|---|---|
| Mt.SeedTableRecurrence | cpuburn.c:65-75 | the seeded table has word 0 equal to the seed mod 2^32, and word i equal to `1812433253 * (w[i-1] ^ (w[i-1] >> 30)) + i` mod 2^32 for 1 <= i < 624 |
| Mt.SeedTableUnique | cpuburn.c:63-76 | any vector that starts with the seed and follows the seeding recurrence is the seeded table |
| MtBanks.MtSlot.InitGenrand | cpuburn.c:63-76 | the loop leaves the vector equal to the seeded table of s and the index at exactly 624 |
| MtBanks.MtSlot.constructor | cpuburn.c:55-60 | a fresh slot holds zero words and the sentinel index 625 |
| Mt.KeyedState | cpuburn.c:82-105 | after init_by_array the index is 624 (so no default seeding follows) and word 0 is 0x80000000 |
| Mt.KeyStepCursors | cpuburn.c:92-94 | one key-mixing step advances i and j by one; i wraps from 624 to 1 and j wraps to 0 at the key length |
| Mt.KeyPassStateCursor | cpuburn.c:86-95 | after n key-mixing steps the state cursor is 1 + n mod 623 |
| Mt.KeyPassKeyCursor | cpuburn.c:86-95 | after n key-mixing steps the key cursor is n mod key_length |
| Mt.KeyPassWrites | cpuburn.c:88-95 | step n writes word 1 + n mod 623 from the key word n mod key_length, and copies it into word 0 when it is word 623 |
| Mt.TailPassStart | cpuburn.c:96 | the second pass starts from the vector and cursors the first pass left |
| Mt.TailPassCursor | cpuburn.c:96-102 | after n steps of the second pass the state cursor is 1 + (max(624, key_length) + n) mod 623, and the key cursor stays where the first pass left it |
| Mt.TailPassKey | cpuburn.c:96-102 | the second pass never moves the key cursor |
| MtBanks.MtSlot.InitByArray | cpuburn.c:82-105 | seeds with 19650218, runs max(624, key_length) key steps and then 623 tail steps, sets word 0 to 0x80000000; the slot ends in the keyed state, index 624 |
| MtBanks.MtSlot.MixKey | cpuburn.c:86-95 | the first loop runs exactly max(624, key_length) iterations and leaves vector and cursors equal to the key pass |
| MtBanks.MtSlot.KeyMixStep | cpuburn.c:89-94 | one in-place iteration of the first loop performs one key-pass step |
| MtBanks.KeyLoopStep | cpuburn.c:89-94 | the write, the wraparound copy and the cursor updates of the loop body are one key-pass step |
| MtBanks.MtSlot.MixTail | cpuburn.c:96-104 | the second loop runs exactly 623 iterations, then word 0 is set to 0x80000000 |
| MtBanks.MtSlot.TailMixStep | cpuburn.c:97-101 | one in-place iteration of the second loop performs one tail-pass step |
| MtBanks.TailLoopStep | cpuburn.c:97-101 | the write (with the wrapping `- i`) and the wraparound copy of the loop body are one tail-pass step |
| Mt.RefillWordLow | cpuburn.c:120-123 | for kk < 227 the new word kk is twisted from old words kk, kk+1 and tap kk+397 |
| Mt.RefillWordHigh | cpuburn.c:124-127 | for 227 <= kk < 623 the tap kk-227 is a word the refill already rewrote |
| Mt.RefillWordLast | cpuburn.c:128-129 | word 623 combines with the already rewritten words 0 and 396 |
| Mt.RefillInPlace | cpuburn.c:120-129 | the refill is sequential and in place in increasing kk: all three cases hold for the whole new vector |
| MtBanks.MtSlot.Refill | cpuburn.c:120-129 | the three refill loops leave the array equal to the in-place refill of its old contents |
| Mt.UndoShift11Inverse | cpuburn.c:137 | tempering step `y ^= y >> 11` is undone by two rounds |
| Mt.UndoShift7Inverse | cpuburn.c:138 | tempering step `y ^= (y << 7) & 0x9d2c5680` is undone by four rounds |
| Mt.TemperShift15Inverse | cpuburn.c:139 | tempering step `y ^= (y << 15) & 0xefc60000` is its own inverse |
| Mt.TemperShift18Inverse | cpuburn.c:140 | tempering step `y ^= y >> 18` is its own inverse |
| Mt.TemperRoundTrip | cpuburn.c:137-142 | tempering is a bijection on 32-bit words: Untemper recovers the consumed word |
| Mt.Next | cpuburn.c:134 | every call consumes exactly one word, so after any call the index lies in 1..624 |
| Mt.Genrand | cpuburn.c:108-143 | below 624 the result is the tempered word at the index and the index advances by one; at 624 or more the next state is the refilled table with index 1 |
| MtBanks.MtSlot.GenrandInt32 | cpuburn.c:108-143 | the in-place call returns exactly the word, and leaves exactly the state, that Genrand gives |
| Mt.IterateAdd | cpuburn.c:173-174 | a calls followed by b calls are a + b calls |
| Mt.IterateIndex | cpuburn.c:114-134 | after n >= 1 calls the index is (i0 + n - 1) mod 624 + 1, where i0 is the starting index capped at 624 |
| Mt.RefillPeriod | cpuburn.c:114-134 | from a freshly seeded slot, call n+1 refills exactly when n is a multiple of 624: one refill per 624 calls |
| Mt.OutputsFollowTable | cpuburn.c:114-142 | after a refill, the next 624 calls return the new words in increasing index order, each tempered |
| Mt.LazySeedIsDefaultSeed | cpuburn.c:117-118 | an unseeded slot yields the same states and outputs as one seeded by init_genrand(5489) |
| Mt.SeededNeverDefaults | cpuburn.c:114-118 | once a slot is seeded its index never returns to 625, so every later refill twists its own table |
| MtBanks.MtBank.constructor | cpuburn.c:55-60 | 32 distinct slots, each with zero words and index 625 |
| MtBanks.MtBank.InitGenrand | cpuburn.c:63-76 | seeds slot tid; every other slot is unchanged |
| MtBanks.MtBank.InitByArray | cpuburn.c:82-105 | keys slot tid; every other slot is unchanged |
| MtBanks.MtBank.GenrandInt32 | cpuburn.c:108-143 | draws from slot tid as Genrand says; every other slot is unchanged |
| Clock.TruncDiv | cpuburn.c:159 | C's `/`: the remainder has the sign of the dividend and is smaller than the divisor |
| Clock.TruncDivOdd | cpuburn.c:159 | truncating division commutes with negation |
| Clock.UsecDiff | cpuburn.c:156-160 | the result is within one microsecond of the exact nanosecond difference |
| Clock.UsecDiffSame | svcur.c:108-112 | equal readings are 0 microseconds apart |
| Clock.UsecDiffWholeSeconds | svcur.c:108-112 | readings with equal nanoseconds are an exact multiple of 1000000 microseconds apart |
| Clock.UsecDiffSwap | svcur.c:108-112 | swapping the readings negates the difference |
| Burner.Configure | cpuburn.c:220-236 | rejects more than 32 threads, then a duration below 1, then a utilization outside 0..100, each exactly when it applies and in that order; does not reject thread counts <= 0; accepted settings give tloop = 1000 * u and tloop + twait = 100000 |
| Burner.DutyCycleExtremes | cpuburn.c:235-236 | utilization 100 gives twait 0; utilization 0 gives tloop 0 |
| Burner.BatchesRunStops | cpuburn.c:172-185 | every batch before the last ends short of tloop, and the last reaches it (or no reading ever does) |
| Burner.ZeroBudgetOneBatch | cpuburn.c:181-184 | with tloop 0 and a first reading not before the start, a burst is exactly one batch |
| Burner.Burner.constructor | cpuburn.c:55-60 | all slots unseeded and all `thread_stat` counters 0 |
| Burner.Burner.SeedAll | cpuburn.c:242-243 | slots 0..nthreads-1 all hold the same keyed state, so they yield identical streams; the other slots are untouched |
| Burner.Burner.RunBatch | cpuburn.c:173-174 | 10000 calls on slot idx advance it by exactly 10000 draws; the other slots are unchanged |
| Burner.Burner.CountedBatch | cpuburn.c:173-176 | one batch is followed by `thread_stat[idx]++`; other counters and slots are unchanged |
| Burner.Burner.Burst | cpuburn.c:172-185 | with the elapsed times `usecdiff(tstart, tend)` of the readings, the burst runs the batches up to the first reading at or over tloop; it finishes exactly when some reading reaches tloop; `thread_stat[idx]` grows by one per batch and the slot by 10000 draws per batch; nothing else changes |
| Burner.SumBump | cpuburn.c:176 | raising one counter by d raises the sum of the counters by d |
| Burner.BurstRaisesTotal | cpuburn.c:264-269 | a burst that adds b to `thread_stat[idx]` and leaves the other counters alone, as `Burst` promises, raises the reported total by exactly b |
| Burner.Burner.TotalStats | cpuburn.c:264-269 | the total is the sum of `thread_stat[0..nthreads)` (0 for nthreads <= 0) |
| Svcur.To12Bit | svcur.c:21-24 | a 16-bit word gives a value in 0..4095: its low byte shifted up 4 bits plus its high nibble |
| Svcur.To12BitBytes | svcur.c:21-24 | for bytes hi, lo the result is the byte-swapped word `lo hi` shifted right by 4 |
| Svcur.ReadWordData | svcur.c:43-54 | negative if and only if the access status is negative (passed through); otherwise a 16-bit value congruent to the word mod 65536 |
| Svcur.VoltageMillivolts | svcur.c:86 | mV is 14 times the 12-bit reading, so a multiple of 14 in 0..57330 |
| Svcur.CurrentMicroamps | svcur.c:99 | the division by the shunt is exact: uA is 5376 times the 12-bit reading, in 0..22014720 |
| Svcur.Process | svcur.c:66-99 | no sample exactly when any bus status is negative; otherwise the sample is 14 times the 12-bit reading of the masked voltage word (register 0x2) in mV and 5376 times the 12-bit reading of the masked current word (register 0x0) in uA, in the ranges above |

## Left out

- Threads, `pthread_create`/`pthread_join`, the `stop` flag and the outer `while (!stop)` loop of `worker`. These are concurrency. One burst is modelled, against a caller-supplied sequence of clock readings.
- `clock_gettime`, `sleep` and `usleep`. These are wall-clock effects: readings are parameters, and the sleep of `twait` is not modelled.
- `getopt`/`atoi` parsing, usage messages and all `printf` reporting. These are I/O. The settings arrive already as integers.
- The floating-point elapsed time and throughput in `main`, and the power and energy values `P`, `E_SOC` and `E_A57` in `svcur`. These are floats.
- `number`, a local of `worker` (cpuburn.c:165). The drawn words are discarded, as in the source. The globals `utilization`, `tloop` and `twait` are not left out: they are values here (`Settings`, the `DutyCycle` of `Configure`, and the `tloop` parameter of `Burst`). The unused global `time_msec` (cpuburn.c:148) is not modelled.
- All I2C plumbing: `ioctl`, `i2c_smbus_access`, `i2c_smbus_write_byte_data`, `open_bus`, `exit(1)`, the SIGINT handler and the measurement loop of `svcur`'s `main`. These are device I/O and signals. Each bus status and data word is a parameter of `Svcur.Process`.
- process_results.py: file reading, regular expressions and float formatting, with no logic of its own.
- The published first output 1067595299 for the key {0x123, 0x234, 0x345, 0x456} is not proved. It would take a symbolic evaluation of about 2000 generator steps.
- MtBanks.MtSlot.InitByArray: the key is a sequence of 32-bit words. The C key is `unsigned long[]`, but only the low 32 bits of each element can reach the state, because of the mask at cpuburn.c:91.
- Burner.Burner.Burst: the clock readings are finite, so the model also stops when they run out (`finished` is false then). The C loop keeps reading the clock until tloop is reached.
- Burner.Burner.TotalStats: the counters are unbounded naturals. The C `unsigned long` counters and the `long` total could wrap only after about 2^63 batches.
- Clock.UsecDiff: the result is an unbounded integer. The 64-bit `long` arithmetic of the source overflows only for readings about 292000 years apart.
- Svcur.To12Bit: defined for the 16-bit values its callers pass, which come masked from `i2c_smbus_read_word_data`. The C function also accepts other `int` values.
- MtBanks.MtBank: the thread index must lie in 0..31. The C code does not check it, and an index outside that range is undefined behaviour.
