/**
 * The Peltier cooler trigger of the gphoto driver: how the port string picks
 * a Raspberry Pi GPIO pin or an ESP relay board, and which request switching
 * the cooler on or off sends to each. GPIO access, sockets, HTTP and IPv4
 * parsing are foreign; their answers are parameters and the requests are
 * returned as values.
 */
module PeltierCooling {
  import opened Wrappers
  import opened StdString

  /** The TCP port of the ESP relay board. */
  const RelayPort: int := 8080

  /** What one switching of the cooler asks of the outside world. */
  datatype RelayRequest =
    | GpioSet(pin: string)                             // ptr_gpio->SetGpio() on the wrapper for `pin`
    | GpioClear(pin: string)                           // ptr_gpio->ClearGpio() on the wrapper for `pin`
    | TcpSend(host: string, port: int, frame: seq<bv8>)
    | HttpGet(url: string)
    | NoRequest

  /**
   * isPiTrigger as a value: the pin text handed to the GPIO wrapper, or None
   * when the port is refused. Refused unless the port holds exactly one '@',
   * at index 3, no ':' and at most two characters after the '@'; then refused
   * unless every character after the '@' is a decimal digit.
   */
  function PiTriggerPin(port: string): (pin: Option<string>)
    ensures pin.Some? ==> |port| >= 4 && pin.value == port[4..] && AllDigits(pin.value)
  {
    var n := Count(port, '@');
    var n2 := Count(port, ':');
    var found := Find(port, '@');
    if n != 1 || found != Some(3) || |port| - 3 > 3 || n2 != 0 then None
    else
      var rest := port[4..];
      if FindFirstNotOf(rest, Digits, 0).Some? then None
      else
        assert AllDigits(rest) by {
          forall i | 0 <= i < |rest|
            ensures IsDigit(rest[i])
          {
            DigitsAreDigits(rest[i]);
          }
        }
        Some(rest)
  }

  /** The ports isPiTrigger accepts, described without the search functions it uses. */
  predicate PiPort(port: string)
  {
    && 4 <= |port| <= 6
    && port[3] == '@'
    && '@' !in port[..3]
    && ':' !in port
    && AllDigits(port[4..])
  }

  /** isPiTrigger accepts exactly the PiPort strings, and the pin is the text after the '@'. */
  lemma PiTriggerPinAccepts(port: string)
    ensures PiTriggerPin(port).Some? <==> PiPort(port)
    ensures PiPort(port) ==> PiTriggerPin(port) == Some(port[4..])
  {
    if PiPort(port) {
      var rest := port[4..];
      assert forall i :: 0 <= i < |rest| ==> rest[i] != '@' && rest[i] in Digits by {
        forall i | 0 <= i < |rest|
          ensures rest[i] != '@' && rest[i] in Digits
        {
          DigitsAreDigits(rest[i]);
        }
      }
      CountSplit(port, 3, '@');
      assert port[3 + 1..] == rest;
      var f := Find(port, '@');
      assert f.value >= 3 by {
        assert forall j :: 0 <= j < 3 ==> port[j] == port[..3][j];
      }
      assert f.value <= 3 by {
        assert forall j :: 3 < j < |port| ==> port[j] == rest[j - 4];
      }
    }
  }

  /** An empty pin passes the digit test: "abc@" is a Pi trigger with pin "". */
  lemma EmptyPinAccepted()
    ensures PiTriggerPin("abc@") == Some("")
  {
    var port := "abc@";
    assert port[..3] == "abc";
    assert PiPort(port);
    PiTriggerPinAccepts(port);
    assert port[4..] == "";
  }

  /** The 4-byte relay frame: A0 01 01 A2 switches the relay on, A0 01 00 A1 off. */
  function RelayFrame(on: bool): (frame: seq<bv8>)
    ensures |frame| == 4 && frame[0] == 0xA0 && frame[1] == 0x01
    ensures frame[2] == (if on then 0x01 else 0x00)
    ensures frame[3] == frame[0] + frame[1] + frame[2]
  {
    if on then [0xA0, 0x01, 0x01, 0xA2] else [0xA0, 0x01, 0x00, 0xA1]
  }

  /** The URL the ESP's HTTP interface switches the relay with. */
  function RelayUrl(host: string, on: bool): string
  {
    "http://" + host + (if on then "/RELAY=ON" else "/RELAY=OFF")
  }

  class PeltierTrigger {
    var gpio: Option<string>      // ptr_gpio, by the pin it was made for
    var isEsp: bool
    var isHttp: bool
    var isPi: bool
    var espIp: string

    /** A Pi trigger always has its GPIO wrapper, and no trigger is both kinds. */
    ghost predicate Valid()
      reads this
    {
      (isPi ==> gpio.Some?) && !(isPi && isEsp)
    }

    /**
     * The constructor: `ipv4` is whether the port parses as an IPv4 address,
     * `httpStatus` the status the ESP's root page answers with.
     */
    constructor (port: string, ipv4: bool, httpStatus: int)
      ensures Valid()
      ensures |port| == 0 ==> !isPi && !isEsp && !isHttp
      ensures isPi <==> |port| > 0 && PiTriggerPin(port).Some?
      ensures isPi ==> gpio == PiTriggerPin(port) && !isEsp
      ensures isEsp <==> |port| > 0 && PiTriggerPin(port).None? && ipv4
      ensures isEsp ==> espIp == port && (isHttp <==> httpStatus == 200)
    {
      gpio := None;
      espIp := "";
      isEsp := false;
      isPi := false;
      isHttp := false;
      new;
      if |port| == 0 {
        return;
      }
      var pi := IsPiTrigger(port);
      if pi {
        isPi := true;
        return;
      }
      var _, esp := SetEspIP(port, ipv4, httpStatus);
      if esp {
        isEsp := true;
        return;
      }
    }

    /** isPiTrigger: on acceptance the GPIO wrapper is made for the pin. */
    method IsPiTrigger(port: string) returns (r: bool)
      modifies this`gpio
      ensures r <==> PiTriggerPin(port).Some?
      ensures gpio == if r then PiTriggerPin(port) else old(gpio)
    {
      var pin := PiTriggerPin(port);
      if pin.None? {
        return false;
      }
      gpio := pin;
      return true;
    }

    /**
     * SetEspIP: refuses a string that is not an IPv4 address; otherwise keeps it
     * and records whether the board answers HTTP with status 200. The request is
     * the GET of the board's root page.
     */
    method SetEspIP(ip: string, ipv4: bool, httpStatus: int) returns (request: RelayRequest, r: bool)
      modifies this`espIp, this`isHttp
      ensures r == ipv4
      ensures !r ==> espIp == old(espIp) && isHttp == old(isHttp) && request == NoRequest
      ensures r ==> espIp == ip && (isHttp <==> httpStatus == 200) && request == HttpGet("http://" + ip)
    {
      if !ipv4 {
        return NoRequest, false;
      }
      espIp := ip;
      request := HttpGet("http://" + espIp);
      isHttp := httpStatus == 200;
      return request, true;
    }

    /**
     * The shared body of start_cooling and stop_cooling: the GPIO first, then
     * the ESP's raw TCP frame (when it has no HTTP interface) or its HTTP URL;
     * false without any trigger. `tcpSent` is whether the frame went out,
     * `httpStatus` the status of the relay URL.
     */
    method SwitchCooling(on: bool, tcpSent: bool, httpStatus: int) returns (ok: bool, request: RelayRequest)
      requires Valid()
      ensures isPi ==> ok && request == (if on then GpioSet(gpio.value) else GpioClear(gpio.value))
      ensures !isPi && isEsp && !isHttp ==> ok == tcpSent && request == TcpSend(espIp, RelayPort, RelayFrame(on))
      ensures !isPi && isEsp && isHttp ==> (ok <==> httpStatus == 200) && request == HttpGet(RelayUrl(espIp, on))
      ensures !isPi && !isEsp ==> !ok && request == NoRequest
    {
      if isPi {
        request := if on then GpioSet(gpio.value) else GpioClear(gpio.value);
      } else if isEsp && !isHttp {
        return tcpSent, TcpSend(espIp, RelayPort, RelayFrame(on));
      } else if isEsp {
        request := HttpGet(RelayUrl(espIp, on));
        if httpStatus != 200 {
          return false, request;
        }
      } else {
        return false, NoRequest;
      }
      return true, request;
    }

    method StartCooling(tcpSent: bool, httpStatus: int) returns (ok: bool, request: RelayRequest)
      requires Valid()
      ensures isPi ==> ok && request == GpioSet(gpio.value)
      ensures !isPi && isEsp && !isHttp ==> ok == tcpSent && request == TcpSend(espIp, RelayPort, [0xA0, 0x01, 0x01, 0xA2])
      ensures !isPi && isEsp && isHttp ==> (ok <==> httpStatus == 200) && request == HttpGet("http://" + espIp + "/RELAY=ON")
      ensures !isPi && !isEsp ==> !ok && request == NoRequest
    {
      ok, request := SwitchCooling(true, tcpSent, httpStatus);
    }

    method StopCooling(tcpSent: bool, httpStatus: int) returns (ok: bool, request: RelayRequest)
      requires Valid()
      ensures isPi ==> ok && request == GpioClear(gpio.value)
      ensures !isPi && isEsp && !isHttp ==> ok == tcpSent && request == TcpSend(espIp, RelayPort, [0xA0, 0x01, 0x00, 0xA1])
      ensures !isPi && isEsp && isHttp ==> (ok <==> httpStatus == 200) && request == HttpGet("http://" + espIp + "/RELAY=OFF")
      ensures !isPi && !isEsp ==> !ok && request == NoRequest
    {
      ok, request := SwitchCooling(false, tcpSent, httpStatus);
    }
  }
}
