/** The YouTube Music client holder: up to three attempts to create and
    initialise a client, the module field holding the live one, and its getter.
    Client construction is a fresh handle; whether `initialize` succeeds on
    attempt `i` is a parameter. */
module YtMusic {
  import opened JsValues
  import opened Constants

  const INIT_FAILED: string := "YTMusic initialization failed after all retries"

  class Host {
    var ytmusic: Option<nat>  // the live client, by handle
    var created: nat          // handles handed out so far

    constructor ()
      ensures ytmusic.None? && created == 0
    {
      ytmusic := None;
      created := 0;
    }

    /** `getYtMusic`. */
    function GetYtMusic(): Option<nat>
      reads this
    {
      ytmusic
    }

    /** `initYTMusic`: each attempt builds a fresh client; the first one that initialises stays. */
    method InitYTMusic(initOk: nat -> bool) returns (r: Result<(), string>, waits: seq<nat>)
      modifies this
      ensures r.Ok? <==> exists i :: 0 <= i < YTMUSIC_MAX_RETRIES && initOk(i)
      ensures r.Ok? ==>
        exists k :: 0 <= k < YTMUSIC_MAX_RETRIES && initOk(k) &&
                    (forall i :: 0 <= i < k ==> !initOk(i)) &&
                    created == old(created) + k + 1 && ytmusic == Some(created - 1) &&
                    waits == YTMUSIC_RETRY_DELAYS[..k]
      ensures r.Err? ==>
        r.error == INIT_FAILED && ytmusic.None? &&
        created == old(created) + YTMUSIC_MAX_RETRIES &&
        waits == YTMUSIC_RETRY_DELAYS[..YTMUSIC_MAX_RETRIES - 1]
    {
      waits := [];
      var attempt := 0;
      while attempt < YTMUSIC_MAX_RETRIES
        invariant 0 <= attempt <= YTMUSIC_MAX_RETRIES
        invariant forall i :: 0 <= i < attempt ==> !initOk(i)
        invariant created == old(created) + attempt
        invariant attempt > 0 ==> ytmusic.None?
        invariant waits == YTMUSIC_RETRY_DELAYS[..if attempt == YTMUSIC_MAX_RETRIES then attempt - 1 else attempt]
      {
        ytmusic := Some(created);
        created := created + 1;
        if initOk(attempt) {
          return Ok(()), waits;
        }
        ytmusic := None;
        if attempt < YTMUSIC_MAX_RETRIES - 1 {
          waits := waits + [YTMUSIC_RETRY_DELAYS[attempt]];
        }
        attempt := attempt + 1;
      }
      r := Err(INIT_FAILED);
    }
  }

  /** After every attempt has failed the getter reports no client. */
  method AllAttemptsFailScenario()
  {
    var h := new Host();
    var r, waits := h.InitYTMusic(i => false);
    assert r.Err? && h.GetYtMusic().None?;
    assert waits == [1000, 3000];
    var secondTry := (i: nat) => i == 1;
    assert secondTry(1) && !secondTry(0);
    var r2, waits2 := h.InitYTMusic(secondTry);
    assert r2.Ok?;
    assert h.GetYtMusic() == Some(4) && waits2 == [1000];
  }
}
