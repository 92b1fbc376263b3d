/**
  The speech-to-text service's bookkeeping: one pool of whisper.cpp workers
  per configuration, guarded by a bounded semaphore whose permits count the
  pooled workers, and a single lazily created MLX Whisper model. The pools
  and semaphores are class-level state shared by every service object; here
  they are the fields of one `SttService` object. Waiting on the semaphore is
  not modelled: a sequential acquire finding no permit reports it.
 */
module WhisperModel {
  import opened Wrappers
  import opened Text
  import WhisperCpp

  /** A pooled whisper.cpp model: its configuration and the number telling it apart from the others. */
  datatype CppWorker = CppWorker(config: WhisperCpp.Config, serial: nat)

  /** The `count` workers a pool starts with, numbered from `first`. */
  function NewWorkers(config: WhisperCpp.Config, first: nat, count: nat): (r: seq<CppWorker>)
    ensures |r| == count
    ensures forall i :: 0 <= i < count ==> r[i] == CppWorker(config, first + i)
  {
    seq(count, i requires 0 <= i < count => CppWorker(config, first + i))
  }

  /** Why a release failed after the worker went back into the pool. */
  datatype ReleaseError =
    | NoSemaphore  // the `KeyError` of a configuration that was never set up
    | OverReleased // the `ValueError` of a bounded semaphore released past its bound

  /** Why a transcription produced no response. */
  datatype Failure =
    | NoWorkerFree        // every worker of the pool is checked out: the acquire would wait
    | UploadFailed(message: string)
    | GenerationFailed(message: string)

  /** The message of the `AttributeError` raised by looking up a method a whisper.cpp model does not define. */
  const NoGenerateAsync := "'WhisperCppModel' object has no attribute 'generate_async'"

  /** A bounded semaphore: its free permits and the number it was created with. */
  datatype Semaphore = Semaphore(value: nat, bound: nat)

  /** One configuration's share of the invariant. */
  ghost predicate PoolMatches(sem: Semaphore, pool: seq<CppWorker>, out: nat) {
    sem.value == |pool| && sem.value + out == sem.bound
  }

  /** Every configuration has a pool, a semaphore and a count of handed-out workers, or none of them, and they match. */
  ghost predicate AllMatch(pools: map<WhisperCpp.Config, seq<CppWorker>>, sems: map<WhisperCpp.Config, Semaphore>,
                           out: map<WhisperCpp.Config, nat>)
  {
    && pools.Keys == sems.Keys == out.Keys
    && forall k :: k in sems ==> PoolMatches(sems[k], pools[k], out[k])
  }

  /** Replacing one configuration's entries by matching ones keeps the invariant. */
  lemma UpdateMatches(pools: map<WhisperCpp.Config, seq<CppWorker>>, sems: map<WhisperCpp.Config, Semaphore>,
                      out: map<WhisperCpp.Config, nat>, key: WhisperCpp.Config, pool: seq<CppWorker>, sem: Semaphore, n: nat)
    requires AllMatch(pools, sems, out) && PoolMatches(sem, pool, n)
    ensures AllMatch(pools[key := pool], sems[key := sem], out[key := n])
  {
  }

  lemma UpdateTwice<K, V>(m: map<K, V>, k: K, a: V, b: V)
    ensures m[k := a][k := b] == m[k := b]
  {
  }

  class SttService {
    /** `_whisper_cpp_pools`: the idle workers of each configuration; the last one is handed out first. */
    var pools: map<WhisperCpp.Config, seq<CppWorker>>
    /** `_semaphores`. */
    var semaphores: map<WhisperCpp.Config, Semaphore>
    /** The serial number the next created worker gets. */
    var nextSerial: nat
    /** `_whisper_model is not None`. */
    var whisperModelLoaded: bool
    /** The uploaded audio files currently on disk. */
    var tempFiles: set<string>

    /** The workers of each configuration handed out and not yet given back. */
    ghost var checkedOut: map<WhisperCpp.Config, nat>
    /** How many MLX Whisper models were ever created. */
    ghost var whisperModelLoads: nat

    /**
      Every configuration has a pool and a semaphore or neither; a pool holds
      exactly as many workers as its semaphore has permits; permits plus the
      workers handed out make up the bound; at most one MLX model is created.
     */
    ghost predicate Valid()
      reads this
    {
      && AllMatch(pools, semaphores, checkedOut)
      && whisperModelLoads == (if whisperModelLoaded then 1 else 0)
    }

    /** The class attributes as the module defines them: no pools, no semaphores, no model. */
    constructor()
      ensures Valid()
      ensures pools == map[] && semaphores == map[] && checkedOut == map[]
      ensures !whisperModelLoaded && tempFiles == {}
    {
      pools := map[];
      semaphores := map[];
      nextSerial := 0;
      whisperModelLoaded := false;
      tempFiles := {};
      checkedOut := map[];
      whisperModelLoads := 0;
    }

    /** `_whisper_cpp_pools.setdefault(key, [])` read without changing anything. */
    function PoolOf(key: WhisperCpp.Config): seq<CppWorker>
      reads this
    {
      if key in pools then pools[key] else []
    }

    /**
      The set-up in `__init__`, repeated as the fallback of `_acquire_cpp_model`:
      a configuration without a semaphore gets one with `maxWorkers` permits
      and `maxWorkers` new workers; a configuration that has one is left alone.
     */
    method EnsurePool(key: WhisperCpp.Config, maxWorkers: nat)
      requires Valid()
      modifies this
      ensures Valid()
      ensures pools == old(pools)[key := old(ReadyPool(key, maxWorkers))]
      ensures semaphores == old(semaphores)[key := old(ReadySemaphore(key, maxWorkers))]
      ensures checkedOut == old(checkedOut)[key := old(ReadyCheckedOut(key))]
      ensures nextSerial == old(nextSerial) + (if key in old(semaphores) then 0 else maxWorkers)
      ensures whisperModelLoaded == old(whisperModelLoaded) && tempFiles == old(tempFiles)
      ensures whisperModelLoads == old(whisperModelLoads)
    {
      if key !in semaphores {
        semaphores := semaphores[key := Semaphore(maxWorkers, maxWorkers)];
        checkedOut := checkedOut[key := 0];
        var pool := PoolOf(key);
        ghost var start := pool;
        var serial := nextSerial;
        var made := 0;
        while made < maxWorkers
          invariant 0 <= made <= maxWorkers
          invariant serial == nextSerial + made
          invariant pool == start + NewWorkers(key, nextSerial, made)
        {
          pool := pool + [CppWorker(key, serial)];
          serial := serial + 1;
          made := made + 1;
        }
        pools := pools[key := pool];
        nextSerial := serial;
        UpdateMatches(old(pools), old(semaphores), old(checkedOut), key, pool, Semaphore(maxWorkers, maxWorkers), 0);
      }
    }

    /** The pool of `key` as it is once `EnsurePool` has run. */
    function ReadyPool(key: WhisperCpp.Config, maxWorkers: nat): seq<CppWorker>
      reads this
    {
      if key in semaphores then PoolOf(key) else PoolOf(key) + NewWorkers(key, nextSerial, maxWorkers)
    }

    /** The semaphore of `key` as it is once `EnsurePool` has run. */
    function ReadySemaphore(key: WhisperCpp.Config, maxWorkers: nat): Semaphore
      reads this
    {
      if key in semaphores then semaphores[key] else Semaphore(maxWorkers, maxWorkers)
    }

    ghost function ReadyCheckedOut(key: WhisperCpp.Config): nat
      reads this
    {
      if key in checkedOut then checkedOut[key] else 0
    }

    /**
      The second half of `_acquire_cpp_model`, once the configuration is set
      up: take a permit and pop the last idle worker, or report that no
      permit is free and change nothing.
     */
    method TakeWorker(key: WhisperCpp.Config) returns (worker: Option<CppWorker>)
      requires Valid() && key in semaphores
      modifies this
      ensures Valid()
      ensures var pool := old(pools[key]);
        && (worker.Some? <==> pool != [])
        && (worker.Some? ==> worker.value == pool[|pool| - 1])
      ensures worker.None? ==> pools == old(pools) && semaphores == old(semaphores) && checkedOut == old(checkedOut)
      ensures worker.Some? ==>
        && pools == old(pools)[key := old(pools[key])[..|old(pools[key])| - 1]]
        && semaphores == old(semaphores)[key := old(semaphores[key]).(value := old(semaphores[key]).value - 1)]
        && checkedOut == old(checkedOut)[key := old(checkedOut[key]) + 1]
      ensures nextSerial == old(nextSerial) && whisperModelLoaded == old(whisperModelLoaded) && tempFiles == old(tempFiles)
      ensures whisperModelLoads == old(whisperModelLoads)
    {
      assert PoolMatches(semaphores[key], pools[key], checkedOut[key]);
      if semaphores[key].value == 0 {
        return None;
      }
      var sem := semaphores[key];
      var pool := pools[key];
      UpdateMatches(pools, semaphores, checkedOut, key, pool[..|pool| - 1], sem.(value := sem.value - 1), checkedOut[key] + 1);
      semaphores := semaphores[key := sem.(value := sem.value - 1)];
      checkedOut := checkedOut[key := checkedOut[key] + 1];
      worker := Some(pool[|pool| - 1]);
      pools := pools[key := pool[..|pool| - 1]];
    }

    /**
      `_acquire_cpp_model`: set the configuration up if needed, take a permit
      and pop the last idle worker. Without a free permit nothing changes
      beyond the set-up and no worker is returned.
     */
    method Acquire(key: WhisperCpp.Config, maxWorkers: nat) returns (worker: Option<CppWorker>)
      requires Valid()
      modifies this
      ensures Valid()
      ensures var pool := old(ReadyPool(key, maxWorkers));
        var sem := old(ReadySemaphore(key, maxWorkers));
        && (worker.Some? <==> pool != [])
        && (worker.Some? ==> worker.value == pool[|pool| - 1])
        && pools == old(pools)[key := if worker.Some? then pool[..|pool| - 1] else pool]
        && semaphores == old(semaphores)[key := if worker.Some? then sem.(value := sem.value - 1) else sem]
        && checkedOut == old(checkedOut)[key := old(ReadyCheckedOut(key)) + if worker.Some? then 1 else 0]
      ensures nextSerial == old(nextSerial) + (if key in old(semaphores) then 0 else maxWorkers)
      ensures whisperModelLoaded == old(whisperModelLoaded) && tempFiles == old(tempFiles)
      ensures whisperModelLoads == old(whisperModelLoads)
    {
      ghost var pool := ReadyPool(key, maxWorkers);
      ghost var sem := ReadySemaphore(key, maxWorkers);
      ghost var out := ReadyCheckedOut(key);
      EnsurePool(key, maxWorkers);
      worker := TakeWorker(key);
      if worker.Some? {
        UpdateTwice(old(pools), key, pool, pool[..|pool| - 1]);
        UpdateTwice(old(semaphores), key, sem, sem.(value := sem.value - 1));
        UpdateTwice(old(checkedOut), key, out, out + 1);
      }
    }

    /**
      `_release_cpp_model`: the worker goes back on top of the pool, then the
      semaphore gets its permit back. A configuration never set up has no
      semaphore, and a semaphore already at its bound refuses; in both cases
      the worker has been appended all the same.
     */
    method Release(key: WhisperCpp.Config, worker: CppWorker) returns (r: Result<(), ReleaseError>)
      modifies this
      ensures pools == old(pools)[key := old(PoolOf(key)) + [worker]]
      ensures key !in old(semaphores) ==> r == Err(NoSemaphore) && semaphores == old(semaphores)
      ensures key in old(semaphores) && old(semaphores[key]).value >= old(semaphores[key]).bound ==>
        r == Err(OverReleased) && semaphores == old(semaphores)
      ensures key in old(semaphores) && old(semaphores[key]).value < old(semaphores[key]).bound ==>
        r.Ok? && semaphores == old(semaphores)[key := old(semaphores[key]).(value := old(semaphores[key]).value + 1)]
      ensures nextSerial == old(nextSerial) && whisperModelLoaded == old(whisperModelLoaded) && tempFiles == old(tempFiles)
      ensures whisperModelLoads == old(whisperModelLoads)
      ensures old(Valid()) && key in old(checkedOut) && old(checkedOut[key]) > 0 ==>
        Valid() && r.Ok? && checkedOut == old(checkedOut)[key := old(checkedOut[key]) - 1]
    {
      pools := pools[key := PoolOf(key) + [worker]];
      if key !in semaphores {
        return Err(NoSemaphore);
      }
      var sem := semaphores[key];
      if sem.value >= sem.bound {
        return Err(OverReleased);
      }
      if key in checkedOut && checkedOut[key] > 0 {
        if old(Valid()) {
          UpdateMatches(old(pools), old(semaphores), old(checkedOut), key, pools[key], sem.(value := sem.value + 1), checkedOut[key] - 1);
        }
        checkedOut := checkedOut[key := checkedOut[key] - 1];
      }
      semaphores := semaphores[key := sem.(value := sem.value + 1)];
      r := Ok(());
    }

    /** `_get_whisper_model`: the MLX model is created on first use and reused afterwards. */
    method GetWhisperModel()
      requires Valid()
      modifies this
      ensures Valid() && whisperModelLoaded && whisperModelLoads == 1
      ensures whisperModelLoads == old(whisperModelLoads) + (if old(whisperModelLoaded) then 0 else 1)
      ensures pools == old(pools) && semaphores == old(semaphores)
      ensures checkedOut == old(checkedOut) && nextSerial == old(nextSerial) && tempFiles == old(tempFiles)
    {
      if !whisperModelLoaded {
        whisperModelLoaded := true;
        whisperModelLoads := whisperModelLoads + 1;
      }
    }

    /**
      The whisper.cpp branch of `transcribe` as evidently intended: borrow a
      worker, save the upload (`upload`, its path or the error saving it
      raised), run the worker's synchronous `generate` on it (`generated`, the
      result of `WhisperCpp.Generate`), delete the upload and give the worker
      back whatever happened, then format the result. The pools and semaphores
      end as the set-up left them.
     */
    method TranscribeCpp(request: WhisperCpp.SttRequest, key: WhisperCpp.Config, maxWorkers: nat,
                         upload: Result<string, string>, generated: Result<WhisperCpp.Transcript, string>)
      returns (r: Result<WhisperCpp.Response, Failure>)
      requires Valid()
      requires upload.Ok? ==> upload.value !in tempFiles
      modifies this
      ensures Valid()
      ensures pools == old(pools)[key := old(ReadyPool(key, maxWorkers))]
      ensures semaphores == old(semaphores)[key := old(ReadySemaphore(key, maxWorkers))]
      ensures checkedOut == old(checkedOut)[key := old(ReadyCheckedOut(key))]
      ensures whisperModelLoaded == old(whisperModelLoaded) && whisperModelLoads == old(whisperModelLoads)
      ensures tempFiles == old(tempFiles)
      ensures r == Err(NoWorkerFree) <==> old(ReadyPool(key, maxWorkers)) == []
      ensures old(ReadyPool(key, maxWorkers)) != [] ==>
        && (upload.Err? ==> r == Err(UploadFailed(upload.error)))
        && (upload.Ok? && generated.Err? ==> r == Err(GenerationFailed(generated.error)))
        && (upload.Ok? && generated.Ok? ==>
              r == Ok(WhisperCpp.FormatResponseSpec(generated.value, request.responseFormat, request.granularities)))
    {
      ghost var pool := ReadyPool(key, maxWorkers);
      ghost var sem := ReadySemaphore(key, maxWorkers);
      ghost var out := ReadyCheckedOut(key);
      var worker := Acquire(key, maxWorkers);
      if worker.None? {
        return Err(NoWorkerFree);
      }
      r := RunWorker(request, key, worker.value, upload, generated);
      assert pool[..|pool| - 1] + [pool[|pool| - 1]] == pool;
      UpdateTwice(old(pools), key, pool[..|pool| - 1], pool);
      UpdateTwice(old(semaphores), key, sem.(value := sem.value - 1), sem);
      UpdateTwice(old(checkedOut), key, out + 1, out);
    }

    /**
      The whisper.cpp branch of `transcribe` as written: once the upload is
      saved it awaits `generate_async`, which `WhisperCppModel` does not
      define, so the attribute lookup raises. The upload is still deleted and
      the worker given back, but no response is ever formatted.
     */
    method TranscribeCppAsWritten(request: WhisperCpp.SttRequest, key: WhisperCpp.Config, maxWorkers: nat,
                                  upload: Result<string, string>)
      returns (r: Result<WhisperCpp.Response, Failure>)
      requires Valid()
      requires upload.Ok? ==> upload.value !in tempFiles
      modifies this
      ensures Valid()
      ensures pools == old(pools)[key := old(ReadyPool(key, maxWorkers))]
      ensures semaphores == old(semaphores)[key := old(ReadySemaphore(key, maxWorkers))]
      ensures checkedOut == old(checkedOut)[key := old(ReadyCheckedOut(key))]
      ensures tempFiles == old(tempFiles)
      ensures r.Err?
      ensures r == Err(NoWorkerFree) <==> old(ReadyPool(key, maxWorkers)) == []
      ensures old(ReadyPool(key, maxWorkers)) != [] ==>
        && (upload.Err? ==> r == Err(UploadFailed(upload.error)))
        && (upload.Ok? ==> r == Err(GenerationFailed(NoGenerateAsync)))
    {
      r := TranscribeCpp(request, key, maxWorkers, upload, Err(NoGenerateAsync));
    }

    /**
      The body of the whisper.cpp branch once a worker is borrowed: the upload
      is saved and deleted again, the worker goes back into the pool whatever
      happened, and the result is formatted.
     */
    method RunWorker(request: WhisperCpp.SttRequest, key: WhisperCpp.Config, worker: CppWorker,
                     upload: Result<string, string>, generated: Result<WhisperCpp.Transcript, string>)
      returns (r: Result<WhisperCpp.Response, Failure>)
      requires Valid() && key in checkedOut && checkedOut[key] > 0
      requires upload.Ok? ==> upload.value !in tempFiles
      modifies this
      ensures Valid()
      ensures pools == old(pools)[key := old(pools[key]) + [worker]]
      ensures semaphores == old(semaphores)[key := old(semaphores[key]).(value := old(semaphores[key]).value + 1)]
      ensures checkedOut == old(checkedOut)[key := old(checkedOut[key]) - 1]
      ensures whisperModelLoaded == old(whisperModelLoaded) && whisperModelLoads == old(whisperModelLoads)
      ensures tempFiles == old(tempFiles)
      ensures upload.Err? ==> r == Err(UploadFailed(upload.error))
      ensures upload.Ok? && generated.Err? ==> r == Err(GenerationFailed(generated.error))
      ensures upload.Ok? && generated.Ok? ==>
        r == Ok(WhisperCpp.FormatResponseSpec(generated.value, request.responseFormat, request.granularities))
    {
      if upload.Ok? {
        tempFiles := tempFiles + {upload.value};
        tempFiles := tempFiles - {upload.value};
      }
      var _ := Release(key, worker);
      if upload.Err? {
        return Err(UploadFailed(upload.error));
      }
      if generated.Err? {
        return Err(GenerationFailed(generated.error));
      }
      var response := WhisperCpp.FormatResponse(generated.value, request.responseFormat, request.granularities);
      return Ok(response);
    }

    /**
      The MLX branch of `transcribe`: create the model on first use, save the
      upload, run it, delete the upload, and format the result with the MLX
      model's own formatter (`mlxFormat`, whose code is not part of this model).
     */
    method TranscribeMlx(upload: Result<string, string>, generated: Result<WhisperCpp.Transcript, string>,
                         mlxFormat: WhisperCpp.Transcript -> WhisperCpp.Response)
      returns (r: Result<WhisperCpp.Response, Failure>)
      requires Valid()
      requires upload.Ok? ==> upload.value !in tempFiles
      modifies this
      ensures Valid() && whisperModelLoaded && whisperModelLoads == 1
      ensures pools == old(pools) && semaphores == old(semaphores) && checkedOut == old(checkedOut)
      ensures tempFiles == old(tempFiles)
      ensures upload.Err? ==> r == Err(UploadFailed(upload.error))
      ensures upload.Ok? && generated.Err? ==> r == Err(GenerationFailed(generated.error))
      ensures upload.Ok? && generated.Ok? ==> r == Ok(mlxFormat(generated.value))
    {
      GetWhisperModel();
      if upload.Err? {
        return Err(UploadFailed(upload.error));
      }
      tempFiles := tempFiles + {upload.value};
      if generated.Err? {
        tempFiles := tempFiles - {upload.value};
        return Err(GenerationFailed(generated.error));
      }
      tempFiles := tempFiles - {upload.value};
      return Ok(mlxFormat(generated.value));
    }

    /**
      `transcribe` as evidently intended: a model name containing
      "whisper.cpp" goes to a pooled whisper.cpp worker that runs its
      `generate`, any other name to the MLX model. Either way the
      upload is gone afterwards and a borrowed worker is back in its pool.
     */
    method Transcribe(request: WhisperCpp.SttRequest, key: WhisperCpp.Config, maxWorkers: nat,
                      upload: Result<string, string>, generated: Result<WhisperCpp.Transcript, string>,
                      mlxFormat: WhisperCpp.Transcript -> WhisperCpp.Response)
      returns (r: Result<WhisperCpp.Response, Failure>)
      requires Valid()
      requires upload.Ok? ==> upload.value !in tempFiles
      modifies this
      ensures Valid()
      ensures tempFiles == old(tempFiles)
      ensures whisperModelLoads <= 1
      ensures r.Ok? ==> upload.Ok? && generated.Ok?
      ensures Contains(request.model, "whisper.cpp") ==>
        && pools == old(pools)[key := old(ReadyPool(key, maxWorkers))]
        && semaphores == old(semaphores)[key := old(ReadySemaphore(key, maxWorkers))]
        && (r == Err(NoWorkerFree) <==> old(ReadyPool(key, maxWorkers)) == [])
        && (r.Ok? ==> r.value == WhisperCpp.FormatResponseSpec(generated.value, request.responseFormat, request.granularities))
      ensures !Contains(request.model, "whisper.cpp") ==>
        && pools == old(pools) && semaphores == old(semaphores) && whisperModelLoaded
        && (r.Ok? ==> r.value == mlxFormat(generated.value))
      ensures r != Err(NoWorkerFree) && upload.Err? ==> r == Err(UploadFailed(upload.error))
      ensures r != Err(NoWorkerFree) && upload.Ok? && generated.Err? ==> r == Err(GenerationFailed(generated.error))
    {
      if Contains(request.model, "whisper.cpp") {
        r := TranscribeCpp(request, key, maxWorkers, upload, generated);
      } else {
        r := TranscribeMlx(upload, generated, mlxFormat);
      }
    }

    /**
      `transcribe` as written: a model name containing "whisper.cpp" never
      yields a response, because that branch calls the missing
      `generate_async`; any other name goes to the MLX model as before.
     */
    method TranscribeAsWritten(request: WhisperCpp.SttRequest, key: WhisperCpp.Config, maxWorkers: nat,
                               upload: Result<string, string>, generated: Result<WhisperCpp.Transcript, string>,
                               mlxFormat: WhisperCpp.Transcript -> WhisperCpp.Response)
      returns (r: Result<WhisperCpp.Response, Failure>)
      requires Valid()
      requires upload.Ok? ==> upload.value !in tempFiles
      modifies this
      ensures Valid()
      ensures tempFiles == old(tempFiles)
      ensures Contains(request.model, "whisper.cpp") ==>
        && r.Err?
        && pools == old(pools)[key := old(ReadyPool(key, maxWorkers))]
        && semaphores == old(semaphores)[key := old(ReadySemaphore(key, maxWorkers))]
        && (r == Err(NoWorkerFree) <==> old(ReadyPool(key, maxWorkers)) == [])
        && (r != Err(NoWorkerFree) && upload.Ok? ==> r == Err(GenerationFailed(NoGenerateAsync)))
      ensures !Contains(request.model, "whisper.cpp") ==>
        && pools == old(pools) && semaphores == old(semaphores) && whisperModelLoaded
        && (r.Ok? <==> upload.Ok? && generated.Ok?)
        && (r.Ok? ==> r.value == mlxFormat(generated.value))
      ensures r != Err(NoWorkerFree) && upload.Err? ==> r == Err(UploadFailed(upload.error))
    {
      if Contains(request.model, "whisper.cpp") {
        r := TranscribeCppAsWritten(request, key, maxWorkers, upload);
      } else {
        r := TranscribeMlx(upload, generated, mlxFormat);
      }
    }
  }
}
