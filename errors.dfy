/** Status codes of the pigpio daemon and the error type built on them (src/error.rs). */
module PigpioErrors {
  import opened Wrappers
  import opened CTypes

  /** `ErrorKind` is a field-less enum of 160 variants. It is modelled by its
      discriminant, the variant's position in the declaration (0 for the first),
      which is also the order `derive(Ord)` compares. The variants are the
      named constants below: 146 daemon kinds, 13 client (pigpiod_if2) kinds,
      then `Other`. */
  newtype ErrorKind = d: int | 0 <= d < 160

  const InitFailed: ErrorKind := 0
  const BadUserGpio: ErrorKind := 1
  const BadGpio: ErrorKind := 2
  const BadMode: ErrorKind := 3
  const BadLevel: ErrorKind := 4
  const BadPud: ErrorKind := 5
  const BadPulsewidth: ErrorKind := 6
  const BadDutycycle: ErrorKind := 7
  const BadTimer: ErrorKind := 8
  const BadMs: ErrorKind := 9
  const BadTimetype: ErrorKind := 10
  const BadSeconds: ErrorKind := 11
  const BadMicros: ErrorKind := 12
  const TimerFailed: ErrorKind := 13
  const BadWdogTimeout: ErrorKind := 14
  const NoAlertFunc: ErrorKind := 15
  const BadClkPeriph: ErrorKind := 16
  const BadClkSource: ErrorKind := 17
  const BadClkMicros: ErrorKind := 18
  const BadBufMillis: ErrorKind := 19
  const BadDutyrange: ErrorKind := 20
  const BadSignum: ErrorKind := 21
  const BadPathname: ErrorKind := 22
  const NoHandle: ErrorKind := 23
  const BadHandle: ErrorKind := 24
  const BadIfFlags: ErrorKind := 25
  const BadChannel: ErrorKind := 26
  const BadSocketPort: ErrorKind := 27
  const BadFifoCommand: ErrorKind := 28
  const BadSecoChannel: ErrorKind := 29
  const NotInitialised: ErrorKind := 30
  const Initialised: ErrorKind := 31
  const BadWaveMode: ErrorKind := 32
  const BadCfgInternal: ErrorKind := 33
  const BadWaveBaud: ErrorKind := 34
  const TooManyPulses: ErrorKind := 35
  const TooManyChars: ErrorKind := 36
  const NotSerialGpio: ErrorKind := 37
  const BadSerialStruc: ErrorKind := 38
  const BadSerialBuf: ErrorKind := 39
  const NotPermitted: ErrorKind := 40
  const SomePermitted: ErrorKind := 41
  const BadWvscCommnd: ErrorKind := 42
  const BadWvsmCommnd: ErrorKind := 43
  const BadWvspCommnd: ErrorKind := 44
  const BadPulselen: ErrorKind := 45
  const BadScript: ErrorKind := 46
  const BadScriptId: ErrorKind := 47
  const BadSerOffset: ErrorKind := 48
  const GpioInUse: ErrorKind := 49
  const BadSerialCount: ErrorKind := 50
  const BadParamNum: ErrorKind := 51
  const DupTag: ErrorKind := 52
  const TooManyTags: ErrorKind := 53
  const BadScriptCmd: ErrorKind := 54
  const BadVarNum: ErrorKind := 55
  const NoScriptRoom: ErrorKind := 56
  const NoMemory: ErrorKind := 57
  const SockReadFailed: ErrorKind := 58
  const SockWritFailed: ErrorKind := 59
  const TooManyParam: ErrorKind := 60
  const ScriptNotReady: ErrorKind := 61
  const BadTag: ErrorKind := 62
  const BadMicsDelay: ErrorKind := 63
  const BadMilsDelay: ErrorKind := 64
  const BadWaveId: ErrorKind := 65
  const TooManyCbs: ErrorKind := 66
  const TooManyOol: ErrorKind := 67
  const EmptyWaveform: ErrorKind := 68
  const NoWaveformId: ErrorKind := 69
  const I2cOpenFailed: ErrorKind := 70
  const SerOpenFailed: ErrorKind := 71
  const SpiOpenFailed: ErrorKind := 72
  const BadI2cBus: ErrorKind := 73
  const BadI2cAddr: ErrorKind := 74
  const BadSpiChannel: ErrorKind := 75
  const BadFlags: ErrorKind := 76
  const BadSpiSpeed: ErrorKind := 77
  const BadSerDevice: ErrorKind := 78
  const BadSerSpeed: ErrorKind := 79
  const BadParam: ErrorKind := 80
  const I2cWriteFailed: ErrorKind := 81
  const I2cReadFailed: ErrorKind := 82
  const BadSpiCount: ErrorKind := 83
  const SerWriteFailed: ErrorKind := 84
  const SerReadFailed: ErrorKind := 85
  const SerReadNoData: ErrorKind := 86
  const UnknownCommand: ErrorKind := 87
  const SpiXferFailed: ErrorKind := 88
  const BadPointer: ErrorKind := 89
  const NoAuxSpi: ErrorKind := 90
  const NotPwmGpio: ErrorKind := 91
  const NotServoGpio: ErrorKind := 92
  const NotHclkGpio: ErrorKind := 93
  const NotHpwmGpio: ErrorKind := 94
  const BadHpwmFreq: ErrorKind := 95
  const BadHpwmDuty: ErrorKind := 96
  const BadHclkFreq: ErrorKind := 97
  const BadHclkPass: ErrorKind := 98
  const HpwmIllegal: ErrorKind := 99
  const BadDatabits: ErrorKind := 100
  const BadStopbits: ErrorKind := 101
  const MsgToobig: ErrorKind := 102
  const BadMallocMode: ErrorKind := 103
  const TooManySegs: ErrorKind := 104
  const BadI2cSeg: ErrorKind := 105
  const BadSmbusCmd: ErrorKind := 106
  const NotI2cGpio: ErrorKind := 107
  const BadI2cWlen: ErrorKind := 108
  const BadI2cRlen: ErrorKind := 109
  const BadI2cCmd: ErrorKind := 110
  const BadI2cBaud: ErrorKind := 111
  const ChainLoopCnt: ErrorKind := 112
  const BadChainLoop: ErrorKind := 113
  const ChainCounter: ErrorKind := 114
  const BadChainCmd: ErrorKind := 115
  const BadChainDelay: ErrorKind := 116
  const ChainNesting: ErrorKind := 117
  const ChainTooBig: ErrorKind := 118
  const Deprecated: ErrorKind := 119
  const BadSerInvert: ErrorKind := 120
  const BadEdge: ErrorKind := 121
  const BadIsrInit: ErrorKind := 122
  const BadForever: ErrorKind := 123
  const BadFilter: ErrorKind := 124
  const BadPad: ErrorKind := 125
  const BadStrength: ErrorKind := 126
  const FilOpenFailed: ErrorKind := 127
  const BadFileMode: ErrorKind := 128
  const BadFileFlag: ErrorKind := 129
  const BadFileRead: ErrorKind := 130
  const BadFileWrite: ErrorKind := 131
  const FileNotRopen: ErrorKind := 132
  const FileNotWopen: ErrorKind := 133
  const BadFileSeek: ErrorKind := 134
  const NoFileMatch: ErrorKind := 135
  const NoFileAccess: ErrorKind := 136
  const FileIsADir: ErrorKind := 137
  const BadShellStatus: ErrorKind := 138
  const BadScriptName: ErrorKind := 139
  const BadSpiBaud: ErrorKind := 140
  const NotSpiGpio: ErrorKind := 141
  const BadEventId: ErrorKind := 142
  const CmdInterrupted: ErrorKind := 143
  const NotOnBcm2711: ErrorKind := 144
  const OnlyOnBcm2711: ErrorKind := 145
  const BadSend: ErrorKind := 146
  const BadRecv: ErrorKind := 147
  const BadGetaddrinfo: ErrorKind := 148
  const BadConnect: ErrorKind := 149
  const BadSocket: ErrorKind := 150
  const BadNoib: ErrorKind := 151
  const DuplicateCallback: ErrorKind := 152
  const BadMalloc: ErrorKind := 153
  const BadCallback: ErrorKind := 154
  const NotifyFailed: ErrorKind := 155
  const CallbackNotFound: ErrorKind := 156
  const UnconnectedPi: ErrorKind := 157
  const TooManyPis: ErrorKind := 158
  const Other: ErrorKind := 159

  /** Number of daemon kinds (codes -1 down to -146) and of client kinds
      (codes -2000 down to -2012). */
  const DaemonKinds: nat := 146
  const ClientKinds: nat := 13
  const FirstClientCode: i32 := -2000

  predicate IsDaemonCode(c: int) { -(DaemonKinds as int) <= c <= -1 }
  predicate IsClientCode(c: int) { FirstClientCode - ClientKinds as int < c <= FirstClientCode }

  /** `ErrorKind::from(c_int)`: a total decoder of status codes. Code -n names the
      n-th daemon kind, code -2000-n the (n+1)-th client kind, any other value `Other`;
      FromCodeArms lists every arm. */
  function FromCode(value: i32): (kind: ErrorKind)
    ensures kind == Other <==> !IsDaemonCode(value) && !IsClientCode(value)
    ensures IsDaemonCode(value) ==> kind < DaemonKinds as ErrorKind
  {
    if IsDaemonCode(value) then (-value - 1) as ErrorKind
    else if IsClientCode(value) then (DaemonKinds as int + FirstClientCode - value) as ErrorKind
    else Other
  }

  /** The status code a kind stands for (the pigpio constant), or None for `Other`. */
  function Code(kind: ErrorKind): (code: Option<i32>)
    ensures code.Some? <==> kind != Other
  {
    if kind < DaemonKinds as ErrorKind then Some(-(kind as int) - 1)
    else if kind < Other then Some(FirstClientCode - (kind as int - DaemonKinds as int))
    else None
  }

  /** `ErrorKind::as_str`: the message of each kind. */
  function AsStr(kind: ErrorKind): (message: string)
    ensures kind == Other ==> message == "unknown error"
  {
    if kind == InitFailed then "pigpio initialisation failed"
    else if kind == BadUserGpio then "GPIO not 0-31"
    else if kind == BadGpio then "GPIO not 0-53"
    else if kind == BadMode then "mode not 0-7"
    else if kind == BadLevel then "level not 0-1"
    else if kind == BadPud then "pud not 0-2"
    else if kind == BadPulsewidth then "pulsewidth not 0 or 500-2500"
    else if kind == BadDutycycle then "dutycycle not 0-range (default 255)"
    else if kind == BadTimer then "timer not 0-9"
    else if kind == BadMs then "ms not 10-60000"
    else if kind == BadTimetype then "timetype not 0-1"
    else if kind == BadSeconds then "seconds < 0"
    else if kind == BadMicros then "micros not 0-999999"
    else if kind == TimerFailed then "gpioSetTimerFunc failed"
    else if kind == BadWdogTimeout then "timeout not 0-60000"
    else if kind == NoAlertFunc then "DEPRECATED"
    else if kind == BadClkPeriph then "clock peripheral not 0-1"
    else if kind == BadClkSource then "DEPRECATED"
    else if kind == BadClkMicros then "clock micros not 1, 2, 4, 5, 8, or 10"
    else if kind == BadBufMillis then "buf millis not 100-10000"
    else if kind == BadDutyrange then "dutycycle range not 25-40000"
    else if kind == BadSignum then "signum not 0-63"
    else if kind == BadPathname then "can't open pathname"
    else if kind == NoHandle then "no handle available"
    else if kind == BadHandle then "unknown handle"
    else if kind == BadIfFlags then "ifFlags > 4"
    else if kind == BadChannel then "DMA channel not 0-14"
    else if kind == BadSocketPort then "socket port not 1024-30000"
    else if kind == BadFifoCommand then "unknown fifo command"
    else if kind == BadSecoChannel then "DMA secondary channel not 0-14"
    else if kind == NotInitialised then "function called before gpioInitialise"
    else if kind == Initialised then "function called after gpioInitialise"
    else if kind == BadWaveMode then "waveform mode not 0-1"
    else if kind == BadCfgInternal then "bad parameter in gpioCfgInternals call"
    else if kind == BadWaveBaud then "baud rate not 50-250K(RX)/50-1M(TX)"
    else if kind == TooManyPulses then "waveform has too many pulses"
    else if kind == TooManyChars then "waveform has too many chars"
    else if kind == NotSerialGpio then "no bit bang serial read in progress on GPIO"
    else if kind == BadSerialStruc then "bad (null) serial structure parameter"
    else if kind == BadSerialBuf then "bad (null) serial buf parameter"
    else if kind == NotPermitted then "no permission to update GPIO"
    else if kind == SomePermitted then "no permission to update one or more GPIO"
    else if kind == BadWvscCommnd then "bad WVSC subcommand"
    else if kind == BadWvsmCommnd then "bad WVSM subcommand"
    else if kind == BadWvspCommnd then "bad WVSP subcommand"
    else if kind == BadPulselen then "trigger pulse length not 1-100"
    else if kind == BadScript then "invalid script"
    else if kind == BadScriptId then "unknown script id"
    else if kind == BadSerOffset then "add serial data offset > 30 minute"
    else if kind == GpioInUse then "GPIO already in use"
    else if kind == BadSerialCount then "must read at least a byte at a time"
    else if kind == BadParamNum then "script parameter id not 0-9"
    else if kind == DupTag then "script has duplicate tag"
    else if kind == TooManyTags then "script has too many tags"
    else if kind == BadScriptCmd then "illegal script command"
    else if kind == BadVarNum then "script variable id not 0-149"
    else if kind == NoScriptRoom then "no more room for scripts"
    else if kind == NoMemory then "can't allocate temporary memory"
    else if kind == SockReadFailed then "socket read failed"
    else if kind == SockWritFailed then "socket write failed"
    else if kind == TooManyParam then "too many script parameters (> 10)"
    else if kind == ScriptNotReady then "script initialising"
    else if kind == BadTag then "script has unresolved tag"
    else if kind == BadMicsDelay then "bad MICS delay (too large)"
    else if kind == BadMilsDelay then "bad MILS delay (too large)"
    else if kind == BadWaveId then "non existent wave id"
    else if kind == TooManyCbs then "No more CBs for waveform"
    else if kind == TooManyOol then "No more OOL for waveform"
    else if kind == EmptyWaveform then "attempt to create an empty waveform"
    else if kind == NoWaveformId then "no more waveform ids"
    else if kind == I2cOpenFailed then "can't open I2C device"
    else if kind == SerOpenFailed then "can't open serial device"
    else if kind == SpiOpenFailed then "can't open SPI device"
    else if kind == BadI2cBus then "bad I2C bus"
    else if kind == BadI2cAddr then "bad I2C address"
    else if kind == BadSpiChannel then "bad SPI channel"
    else if kind == BadFlags then "bad i2c/spi/ser open flags"
    else if kind == BadSpiSpeed then "bad SPI speed"
    else if kind == BadSerDevice then "bad serial device name"
    else if kind == BadSerSpeed then "bad serial baud rate"
    else if kind == BadParam then "bad i2c/spi/ser parameter"
    else if kind == I2cWriteFailed then "I2C write failed"
    else if kind == I2cReadFailed then "I2C read failed"
    else if kind == BadSpiCount then "bad SPI count"
    else if kind == SerWriteFailed then "ser write failed"
    else if kind == SerReadFailed then "ser read failed"
    else if kind == SerReadNoData then "ser read no data available"
    else if kind == UnknownCommand then "unknown command"
    else if kind == SpiXferFailed then "spi xfer/read/write failed"
    else if kind == BadPointer then "bad (NULL) pointer"
    else if kind == NoAuxSpi then "no auxiliary SPI on Pi A or B"
    else if kind == NotPwmGpio then "GPIO is not in use for PWM"
    else if kind == NotServoGpio then "GPIO is not in use for servo pulses"
    else if kind == NotHclkGpio then "GPIO has no hardware clock"
    else if kind == NotHpwmGpio then "GPIO has no hardware PWM"
    else if kind == BadHpwmFreq then "invalid hardware PWM frequency"
    else if kind == BadHpwmDuty then "hardware PWM dutycycle not 0-1M"
    else if kind == BadHclkFreq then "invalid hardware clock frequency"
    else if kind == BadHclkPass then "need password to use hardware clock 1"
    else if kind == HpwmIllegal then "illegal, PWM in use for main clock"
    else if kind == BadDatabits then "serial data bits not 1-32"
    else if kind == BadStopbits then "serial (half) stop bits not 2-8"
    else if kind == MsgToobig then "socket/pipe message too big"
    else if kind == BadMallocMode then "bad memory allocation mode"
    else if kind == TooManySegs then "too many I2C transaction segments"
    else if kind == BadI2cSeg then "an I2C transaction segment failed"
    else if kind == BadSmbusCmd then "SMBus command not supported by driver"
    else if kind == NotI2cGpio then "no bit bang I2C in progress on GPIO"
    else if kind == BadI2cWlen then "bad I2C write length"
    else if kind == BadI2cRlen then "bad I2C read length"
    else if kind == BadI2cCmd then "bad I2C command"
    else if kind == BadI2cBaud then "bad I2C baud rate, not 50-500k"
    else if kind == ChainLoopCnt then "bad chain loop count"
    else if kind == BadChainLoop then "empty chain loop"
    else if kind == ChainCounter then "too many chain counters"
    else if kind == BadChainCmd then "bad chain command"
    else if kind == BadChainDelay then "bad chain delay micros"
    else if kind == ChainNesting then "chain counters nested too deeply"
    else if kind == ChainTooBig then "chain is too long"
    else if kind == Deprecated then "deprecated function removed"
    else if kind == BadSerInvert then "bit bang serial invert not 0 or 1"
    else if kind == BadEdge then "bad ISR edge, not 1, 1, or 2"
    else if kind == BadIsrInit then "bad ISR initialisation"
    else if kind == BadForever then "loop forever must be last chain command"
    else if kind == BadFilter then "bad filter parameter"
    else if kind == BadPad then "bad pad number"
    else if kind == BadStrength then "bad pad drive strength"
    else if kind == FilOpenFailed then "file open failed"
    else if kind == BadFileMode then "bad file mode"
    else if kind == BadFileFlag then "bad file flag"
    else if kind == BadFileRead then "bad file read"
    else if kind == BadFileWrite then "bad file write"
    else if kind == FileNotRopen then "file not open for read"
    else if kind == FileNotWopen then "file not open for write"
    else if kind == BadFileSeek then "bad file seek"
    else if kind == NoFileMatch then "no files match pattern"
    else if kind == NoFileAccess then "no permission to access file"
    else if kind == FileIsADir then "file is a directory"
    else if kind == BadShellStatus then "bad shell return status"
    else if kind == BadScriptName then "bad script name"
    else if kind == BadSpiBaud then "bad SPI baud rate, not 50-500k"
    else if kind == NotSpiGpio then "no bit bang SPI in progress on GPIO"
    else if kind == BadEventId then "bad event id"
    else if kind == CmdInterrupted then "command interrupted, Python"
    else if kind == NotOnBcm2711 then "not available on BCM2711"
    else if kind == OnlyOnBcm2711 then "only available on BCM2711"
    else if kind == BadSend then "failed to send to pigpiod"
    else if kind == BadRecv then "failed to receive from pigpiod"
    else if kind == BadGetaddrinfo then "failed to find address of pigpiod"
    else if kind == BadConnect then "failed to connect to pigpiod"
    else if kind == BadSocket then "failed to create socket"
    else if kind == BadNoib then "failed to open notification in band"
    else if kind == DuplicateCallback then "identical callback exists"
    else if kind == BadMalloc then "failed to malloc"
    else if kind == BadCallback then "bad callback parameter"
    else if kind == NotifyFailed then "failed to create notification thread"
    else if kind == CallbackNotFound then "callback not found"
    else if kind == UnconnectedPi then "not connected to Pi"
    else if kind == TooManyPis then "too many connected Pis"
    else "unknown error"
  }

  /** The arms -1 => InitFailed ... -40 => BadSerialBuf of the decoder, one by one. */
  lemma FromCodeArms1To40()
    ensures FromCode(-1) == InitFailed
    ensures FromCode(-2) == BadUserGpio
    ensures FromCode(-3) == BadGpio
    ensures FromCode(-4) == BadMode
    ensures FromCode(-5) == BadLevel
    ensures FromCode(-6) == BadPud
    ensures FromCode(-7) == BadPulsewidth
    ensures FromCode(-8) == BadDutycycle
    ensures FromCode(-9) == BadTimer
    ensures FromCode(-10) == BadMs
    ensures FromCode(-11) == BadTimetype
    ensures FromCode(-12) == BadSeconds
    ensures FromCode(-13) == BadMicros
    ensures FromCode(-14) == TimerFailed
    ensures FromCode(-15) == BadWdogTimeout
    ensures FromCode(-16) == NoAlertFunc
    ensures FromCode(-17) == BadClkPeriph
    ensures FromCode(-18) == BadClkSource
    ensures FromCode(-19) == BadClkMicros
    ensures FromCode(-20) == BadBufMillis
    ensures FromCode(-21) == BadDutyrange
    ensures FromCode(-22) == BadSignum
    ensures FromCode(-23) == BadPathname
    ensures FromCode(-24) == NoHandle
    ensures FromCode(-25) == BadHandle
    ensures FromCode(-26) == BadIfFlags
    ensures FromCode(-27) == BadChannel
    ensures FromCode(-28) == BadSocketPort
    ensures FromCode(-29) == BadFifoCommand
    ensures FromCode(-30) == BadSecoChannel
    ensures FromCode(-31) == NotInitialised
    ensures FromCode(-32) == Initialised
    ensures FromCode(-33) == BadWaveMode
    ensures FromCode(-34) == BadCfgInternal
    ensures FromCode(-35) == BadWaveBaud
    ensures FromCode(-36) == TooManyPulses
    ensures FromCode(-37) == TooManyChars
    ensures FromCode(-38) == NotSerialGpio
    ensures FromCode(-39) == BadSerialStruc
    ensures FromCode(-40) == BadSerialBuf
  {
  }

  /** The arms -41 => NotPermitted ... -80 => BadSerSpeed of the decoder, one by one. */
  lemma FromCodeArms41To80()
    ensures FromCode(-41) == NotPermitted
    ensures FromCode(-42) == SomePermitted
    ensures FromCode(-43) == BadWvscCommnd
    ensures FromCode(-44) == BadWvsmCommnd
    ensures FromCode(-45) == BadWvspCommnd
    ensures FromCode(-46) == BadPulselen
    ensures FromCode(-47) == BadScript
    ensures FromCode(-48) == BadScriptId
    ensures FromCode(-49) == BadSerOffset
    ensures FromCode(-50) == GpioInUse
    ensures FromCode(-51) == BadSerialCount
    ensures FromCode(-52) == BadParamNum
    ensures FromCode(-53) == DupTag
    ensures FromCode(-54) == TooManyTags
    ensures FromCode(-55) == BadScriptCmd
    ensures FromCode(-56) == BadVarNum
    ensures FromCode(-57) == NoScriptRoom
    ensures FromCode(-58) == NoMemory
    ensures FromCode(-59) == SockReadFailed
    ensures FromCode(-60) == SockWritFailed
    ensures FromCode(-61) == TooManyParam
    ensures FromCode(-62) == ScriptNotReady
    ensures FromCode(-63) == BadTag
    ensures FromCode(-64) == BadMicsDelay
    ensures FromCode(-65) == BadMilsDelay
    ensures FromCode(-66) == BadWaveId
    ensures FromCode(-67) == TooManyCbs
    ensures FromCode(-68) == TooManyOol
    ensures FromCode(-69) == EmptyWaveform
    ensures FromCode(-70) == NoWaveformId
    ensures FromCode(-71) == I2cOpenFailed
    ensures FromCode(-72) == SerOpenFailed
    ensures FromCode(-73) == SpiOpenFailed
    ensures FromCode(-74) == BadI2cBus
    ensures FromCode(-75) == BadI2cAddr
    ensures FromCode(-76) == BadSpiChannel
    ensures FromCode(-77) == BadFlags
    ensures FromCode(-78) == BadSpiSpeed
    ensures FromCode(-79) == BadSerDevice
    ensures FromCode(-80) == BadSerSpeed
  {
  }

  /** The arms -81 => BadParam ... -120 => Deprecated of the decoder, one by one. */
  lemma FromCodeArms81To120()
    ensures FromCode(-81) == BadParam
    ensures FromCode(-82) == I2cWriteFailed
    ensures FromCode(-83) == I2cReadFailed
    ensures FromCode(-84) == BadSpiCount
    ensures FromCode(-85) == SerWriteFailed
    ensures FromCode(-86) == SerReadFailed
    ensures FromCode(-87) == SerReadNoData
    ensures FromCode(-88) == UnknownCommand
    ensures FromCode(-89) == SpiXferFailed
    ensures FromCode(-90) == BadPointer
    ensures FromCode(-91) == NoAuxSpi
    ensures FromCode(-92) == NotPwmGpio
    ensures FromCode(-93) == NotServoGpio
    ensures FromCode(-94) == NotHclkGpio
    ensures FromCode(-95) == NotHpwmGpio
    ensures FromCode(-96) == BadHpwmFreq
    ensures FromCode(-97) == BadHpwmDuty
    ensures FromCode(-98) == BadHclkFreq
    ensures FromCode(-99) == BadHclkPass
    ensures FromCode(-100) == HpwmIllegal
    ensures FromCode(-101) == BadDatabits
    ensures FromCode(-102) == BadStopbits
    ensures FromCode(-103) == MsgToobig
    ensures FromCode(-104) == BadMallocMode
    ensures FromCode(-105) == TooManySegs
    ensures FromCode(-106) == BadI2cSeg
    ensures FromCode(-107) == BadSmbusCmd
    ensures FromCode(-108) == NotI2cGpio
    ensures FromCode(-109) == BadI2cWlen
    ensures FromCode(-110) == BadI2cRlen
    ensures FromCode(-111) == BadI2cCmd
    ensures FromCode(-112) == BadI2cBaud
    ensures FromCode(-113) == ChainLoopCnt
    ensures FromCode(-114) == BadChainLoop
    ensures FromCode(-115) == ChainCounter
    ensures FromCode(-116) == BadChainCmd
    ensures FromCode(-117) == BadChainDelay
    ensures FromCode(-118) == ChainNesting
    ensures FromCode(-119) == ChainTooBig
    ensures FromCode(-120) == Deprecated
  {
  }

  /** The arms -121 => BadSerInvert ... -146 => OnlyOnBcm2711 of the decoder, one by one. */
  lemma FromCodeArms121To146()
    ensures FromCode(-121) == BadSerInvert
    ensures FromCode(-122) == BadEdge
    ensures FromCode(-123) == BadIsrInit
    ensures FromCode(-124) == BadForever
    ensures FromCode(-125) == BadFilter
    ensures FromCode(-126) == BadPad
    ensures FromCode(-127) == BadStrength
    ensures FromCode(-128) == FilOpenFailed
    ensures FromCode(-129) == BadFileMode
    ensures FromCode(-130) == BadFileFlag
    ensures FromCode(-131) == BadFileRead
    ensures FromCode(-132) == BadFileWrite
    ensures FromCode(-133) == FileNotRopen
    ensures FromCode(-134) == FileNotWopen
    ensures FromCode(-135) == BadFileSeek
    ensures FromCode(-136) == NoFileMatch
    ensures FromCode(-137) == NoFileAccess
    ensures FromCode(-138) == FileIsADir
    ensures FromCode(-139) == BadShellStatus
    ensures FromCode(-140) == BadScriptName
    ensures FromCode(-141) == BadSpiBaud
    ensures FromCode(-142) == NotSpiGpio
    ensures FromCode(-143) == BadEventId
    ensures FromCode(-144) == CmdInterrupted
    ensures FromCode(-145) == NotOnBcm2711
    ensures FromCode(-146) == OnlyOnBcm2711
  {
  }

  /** The arms -2000 => BadSend ... -2012 => TooManyPis of the decoder, one by one. */
  lemma FromCodeArms2000To2012()
    ensures FromCode(-2000) == BadSend
    ensures FromCode(-2001) == BadRecv
    ensures FromCode(-2002) == BadGetaddrinfo
    ensures FromCode(-2003) == BadConnect
    ensures FromCode(-2004) == BadSocket
    ensures FromCode(-2005) == BadNoib
    ensures FromCode(-2006) == DuplicateCallback
    ensures FromCode(-2007) == BadMalloc
    ensures FromCode(-2008) == BadCallback
    ensures FromCode(-2009) == NotifyFailed
    ensures FromCode(-2010) == CallbackNotFound
    ensures FromCode(-2011) == UnconnectedPi
    ensures FromCode(-2012) == TooManyPis
  {
  }
  /** Every kind but `Other` has a code, and decoding that code gives the kind back. */
  lemma FromCodeOfCode(kind: ErrorKind)
    requires kind != Other
    ensures FromCode(Code(kind).value) == kind
  {
  }

  /** Every code that decodes to a named kind is that kind's code. */
  lemma CodeOfFromCode(c: i32)
    requires FromCode(c) != Other
    ensures Code(FromCode(c)) == Some(c)
  {
  }

  /** No two codes decode to the same named kind. */
  lemma FromCodeInjective(a: i32, b: i32)
    requires FromCode(a) == FromCode(b) != Other
    ensures a == b
  {
    CodeOfFromCode(a);
    CodeOfFromCode(b);
  }

  /** The decoder keeps the order of the declaration: a code further down a range
      names a later variant, and every daemon kind comes before every client kind. */
  lemma FromCodeMonotone(a: i32, b: i32)
    requires (IsDaemonCode(a) && IsDaemonCode(b)) || (IsClientCode(a) && IsClientCode(b))
    requires b < a
    ensures FromCode(a) < FromCode(b)
  {
  }

  lemma DaemonKindsBeforeClientKinds(a: i32, b: i32)
    requires IsDaemonCode(a) && IsClientCode(b)
    ensures FromCode(a) < FromCode(b) < Other
  {
  }

  // ---------------------------------------------------------------
  // The error type
  // ---------------------------------------------------------------

  /** The boxed `dyn std::error::Error` a custom error wraps; only its identity matters here. */
  datatype Inner = Inner(description: string)

  /** `struct Custom { kind, error }`. */
  datatype CustomError = CustomError(kind: ErrorKind, error: Inner)

  /** `enum Error { Pi(c_int), Simple(ErrorKind), Custom(Box<Custom>) }`. */
  datatype Error = Pi(code: i32) | Simple(simple: ErrorKind) | Custom(custom: CustomError)

  /** `Error::kind`. */
  function Kind(e: Error): (k: ErrorKind)
    ensures e.Pi? ==> k == FromCode(e.code)
    ensures e.Simple? ==> k == e.simple
    ensures e.Custom? ==> k == e.custom.kind
  {
    match e
    case Pi(code) => FromCode(code)
    case Simple(kind) => kind
    case Custom(c) => c.kind
  }

  /** `Error::get_ref`: the wrapped error, present only for a custom error. */
  function GetRef(e: Error): (r: Option<Inner>)
    ensures r.Some? <==> e.Custom?
  {
    match e
    case Custom(c) => Some(c.error)
    case _ => None
  }

  /** `Error::into_inner`: consumes the error and gives back the wrapped one, present
      only for a custom error; as a value it agrees with GetRef. */
  function IntoInner(e: Error): (r: Option<Inner>)
    ensures r.Some? <==> e.Custom?
    ensures r == GetRef(e)
  {
    match e
    case Custom(c) => Some(c.error)
    case _ => None
  }

  /** `Error::raw_pi_error`: the raw status code, present only for a daemon error. */
  function RawPiError(e: Error): (r: Option<i32>)
    ensures r.Some? <==> e.Pi?
  {
    match e
    case Pi(code) => Some(code)
    case _ => None
  }

  /** `Error::new(kind, error)`: a custom error of the given kind. */
  function New(kind: ErrorKind, error: Inner): (e: Error)
    ensures Kind(e) == kind
    ensures GetRef(e) == Some(error) && RawPiError(e) == None
  {
    Custom(CustomError(kind, error))
  }

  /** `Error::other(error)`: a custom error of kind `Other`. */
  function OtherError(error: Inner): (e: Error)
    ensures Kind(e) == Other
    ensures GetRef(e) == Some(error) && RawPiError(e) == None
  {
    New(Other, error)
  }

  /** `Error::from_raw_pi_error`. */
  function FromRawPiError(code: i32): (e: Error)
    ensures RawPiError(e) == Some(code)
    ensures Kind(e) == FromCode(code)
    ensures GetRef(e) == None
  {
    Pi(code)
  }

  /** A daemon error is rebuilt from its raw code. */
  lemma RawPiErrorInverse(e: Error)
    requires RawPiError(e).Some?
    ensures FromRawPiError(RawPiError(e).value) == e
  {
  }
}
