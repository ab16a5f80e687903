/**
 * The API health indicator in the sidebar (`HealthIndicator`): a status
 * and a tooltip text, set from each health-check result. The check itself
 * (the server action and its `fetch`) and the thirty-second polling timer
 * are outside the model: each result arrives as the argument of
 * `CheckHealth`.
 */
module HealthIndicator {
  import opened Text
  import opened ApiTypes

  datatype HealthStatus = Checking | Healthy | Degraded | Offline

  /** `checkApiHealth`'s result: the health document, or an error text. */
  datatype HealthResult = Reachable(health: HealthResponse) | Unreachable(error: string)

  /**
   * The classification inside `checkHealth`: healthy when the API and the
   * database both report "ok", degraded for any other report, offline
   * when the API could not be reached.
   */
  function Classify(result: HealthResult): (r: (HealthStatus, string))
    ensures r.0 != Checking
    ensures r.0 == Healthy <==> result.Reachable? && result.health.status == "ok" && result.health.database == "ok"
    ensures r.0 == Offline <==> result.Unreachable?
    ensures r.0 == Healthy ==> r.1 == "API is healthy"
    ensures r.0 == Degraded ==> r.1 == "API: " + result.health.status + ", Database: " + result.health.database
    ensures r.0 == Offline ==> r.1 == "API unreachable: " + result.error
  {
    match result
    case Reachable(health) =>
      if health.status == "ok" && health.database == "ok" then (Healthy, "API is healthy")
      else (Degraded, "API: " + health.status + ", Database: " + health.database)
    case Unreachable(error) => (Offline, "API unreachable: " + error)
  }

  /** Reads the status back from a tooltip text, by how the text begins. */
  function StatusOfDetails(details: string): (r: HealthStatus)
    ensures r != Checking
  {
    if details == "API is healthy" then Healthy
    else if StartsWith(details, "API unreachable: ") then Offline
    else Degraded
  }

  /** The tooltip text alone tells which status was set: the three texts never coincide. */
  lemma DetailsDetermineStatus(result: HealthResult)
    ensures StatusOfDetails(Classify(result).1) == Classify(result).0
  {
    var (status, details) := Classify(result);
    if status == Degraded {
      assert details[3] == ':';
      assert "API is healthy"[3] == ' ' && "API unreachable: "[3] == ' ';
    }
  }

  /** `statusColors`: the dot's colour classes, one for every status. */
  function Color(s: HealthStatus): (r: string)
    ensures r != ""
  {
    match s
    case Checking => "text-muted-foreground animate-pulse"
    case Healthy => "text-green-500"
    case Degraded => "text-yellow-500"
    case Offline => "text-red-500"
  }

  /** `statusLabels`: the text after "API: ", one for every status. */
  function Label(s: HealthStatus): (r: string)
    ensures r != ""
  {
    match s
    case Checking => "Checking..."
    case Healthy => "Connected"
    case Degraded => "Degraded"
    case Offline => "Offline"
  }

  /** No two statuses share a colour or a label. */
  lemma ColorsAndLabelsAreDistinct(a: HealthStatus, b: HealthStatus)
    ensures Color(a) == Color(b) ==> a == b
    ensures Label(a) == Label(b) ==> a == b
  {
    if a != b {
      assert Color(a)[5] != Color(b)[5];
      assert Label(a)[2] != Label(b)[2];
    }
  }

  class Indicator {
    var status: HealthStatus
    var details: string

    /** Before the first result: checking. */
    constructor()
      ensures status == Checking && details == "Checking API status..."
    {
      status := Checking;
      details := "Checking API status...";
    }

    /** `checkHealth` once its result has arrived. */
    method CheckHealth(result: HealthResult)
      modifies this
      ensures (status, details) == Classify(result)
      ensures status != Checking
      ensures StatusOfDetails(details) == status
    {
      var (s, d) := Classify(result);
      DetailsDetermineStatus(result);
      status := s;
      details := d;
    }

    /** The text beside the dot. */
    function Caption(): (r: string)
      reads this
    {
      "API: " + Label(status)
    }
  }
}
