/** The stack of configuration layers: which layer answers for a key, and with what. */
module Sources {
  import opened Wrappers
  import opened Params

  // In precedence order.
  datatype Source = Admin | Cli | Env | Stored | EnvFile | File | Carried | Default {
    // Fixed for the life of the process, so the admin API may not override it.
    predicate IsPinned() {
      Cli? || Env?
    }
  }

  type Provenance = map<Param, Source>

  datatype LayeredEnv = LayeredEnv(
    overlay: Layer, cli: Layer, env: Layer, stored: Layer, envFile: Layer, file: Layer, carried: Layer)
  {
    function Get(p: Param): Option<string> {
      var key := Known(p);
      if key in overlay then Some(overlay[key])
      else if key in cli then Some(cli[key])
      else if key in env then Some(env[key])
      else if key in stored then Some(stored[key])
      else if key in envFile then Some(envFile[key])
      else if key in file then Some(file[key])
      else if key in carried then Some(carried[key])
      else None
    }

    function Answers(): (get: Param -> Option<string>)
      ensures forall p :: get(p) == Get(p)
    {
      (p: Param) => Get(p)
    }

    function SourceOf(p: Param): Source {
      var key := Known(p);
      if key in overlay then Admin
      else if key in cli then Cli
      else if key in env then Env
      else if key in stored then Stored
      else if key in envFile then EnvFile
      else if key in file then File
      else if key in carried then Carried
      else Default
    }

    function LayerOf(s: Source): Layer {
      match s
      case Admin => overlay
      case Cli => cli
      case Env => env
      case Stored => stored
      case EnvFile => envFile
      case File => file
      case Carried => carried
      case Default => map[]
    }
  }

  function Rank(s: Source): nat {
    match s
    case Admin => 0
    case Cli => 1
    case Env => 2
    case Stored => 3
    case EnvFile => 4
    case File => 5
    case Carried => 6
    case Default => 7
  }

  /** The layer reported for a key is the highest one holding it, and its value is the answer. */
  lemma SourceAnswers(l: LayeredEnv, p: Param)
    ensures var s := l.SourceOf(p);
            && (s.Default? <==> l.Get(p).None?)
            && (!s.Default? ==> Known(p) in l.LayerOf(s) && l.Get(p) == Some(l.LayerOf(s)[Known(p)]))
            && (forall above: Source :: Rank(above) < Rank(s) ==> Known(p) !in l.LayerOf(above))
  {
    forall above: Source | Rank(above) < Rank(l.SourceOf(p))
      ensures Known(p) !in l.LayerOf(above)
    {
      match above {
        case Admin => case Cli => case Env => case Stored =>
        case EnvFile => case File => case Carried => case Default =>
      }
    }
  }

  function Capture(l: LayeredEnv): (sources: Provenance)
    ensures forall p :: p in sources && sources[p] == l.SourceOf(p)
  {
    var captured := map p | p in PARAMS :: l.SourceOf(p);
    assert forall p: Param :: p in captured by {
      forall p: Param ensures p in captured { EveryParamIsListed(p); }
    }
    captured
  }

  // A field nothing was recorded for counts as one no layer set.
  function SourceIn(sources: Provenance, p: Param): Source {
    if p in sources then sources[p] else Default
  }
}
