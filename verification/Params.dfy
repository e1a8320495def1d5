/**
  The panel's parameters and the MOD layer: which faces own a depth parameter,
  and what that depth drives.
 */
module Params {

  const RATE_A: nat := 0
  const SHAPE_A: nat := 1
  const DENSITY_A: nat := 2
  const SMOOTH_A: nat := 3
  const RANGE_A: nat := 4
  const MELODY_A: nat := 5
  const MOD_A: nat := 6
  const TUNE_A: nat := 7
  const ATTACK_A: nat := 8
  const DECAY_A: nat := 9
  const RES_A: nat := 10
  const SUB_A: nat := 11
  const SOURCE_A: nat := 12
  const FLUX_A: nat := 13
  const GRIT_A: nat := 14
  const COMP_A: nat := 15
  const STEPS_A: nat := 16
  const ENGINE_A: nat := 17
  const DETUNE_A: nat := 18
  const SONG_A: nat := 19
  const RATE_B: nat := 20
  const SHAPE_B: nat := 21
  const DENSITY_B: nat := 22
  const SMOOTH_B: nat := 23
  const RANGE_B: nat := 24
  const MELODY_B: nat := 25
  const MOD_B: nat := 26
  const TUNE_B: nat := 27
  const ATTACK_B: nat := 28
  const DECAY_B: nat := 29
  const RES_B: nat := 30
  const SUB_B: nat := 31
  const SOURCE_B: nat := 32
  const FLUX_B: nat := 33
  const GRIT_B: nat := 34
  const COMP_B: nat := 35
  const STEPS_B: nat := 36
  const ENGINE_B: nat := 37
  const DETUNE_B: nat := 38
  const SONG_B: nat := 39
  const MORPH: nat := 40
  const TEMPO: nat := 41
  const COUPLE: nat := 42
  const SCALE: nat := 43
  const DRIFT: nat := 44
  const REV_SIZE: nat := 45
  const REV_DECAY: nat := 46
  const REV_TONE: nat := 47
  const REV_DIFF: nat := 48
  const CHOKE: nat := 49
  const FILT_A: nat := 50
  const FILT_B: nat := 51
  const TIDE: nat := 52
  const FLUXRATE_A: nat := 53
  const FLUXRATE_B: nat := 54
  const FLUXFB_A: nat := 55
  const FLUXFB_B: nat := 56
  const COLOR_A: nat := 57
  const COLOR_B: nat := 58
  const LINK_A: nat := 59
  const LINK_B: nat := 60
  const STAGES_A: nat := 61
  const STAGES_B: nat := 62
  const REC_A: nat := 63
  const REC_B: nat := 64
  const REV_MIX_A: nat := 65
  const REV_MIX_B: nat := 66
  const SHUFFLE: nat := 67
  const PACE: nat := 68
  const DEPTH_A: nat := 69
  const DEPTH_B: nat := 70
  const PULL: nat := 71
  const PAN_A: nat := 72
  const PAN_B: nat := 73
  const ROOT_A: nat := 74
  const ROOT_B: nat := 75
  const REV_MOD: nat := 76
  const MODBTN: nat := 77
  const MODD_SOURCE_A: nat := 78
  const MODD_SOURCE_B: nat := 79
  const MODD_DEPTH_A: nat := 80
  const MODD_DEPTH_B: nat := 81
  const MODD_FILT_A: nat := 82
  const MODD_FILT_B: nat := 83
  const MODD_FLUX_A: nat := 84
  const MODD_FLUX_B: nat := 85
  const MODD_FLUXFB_A: nat := 86
  const MODD_FLUXFB_B: nat := 87
  const MODD_REV_MIX_A: nat := 88
  const MODD_REV_MIX_B: nat := 89
  const MODD_RATE_A: nat := 90
  const MODD_RATE_B: nat := 91
  const MODD_SHAPE_A: nat := 92
  const MODD_SHAPE_B: nat := 93
  const MODD_DENSITY_A: nat := 94
  const MODD_DENSITY_B: nat := 95
  const MODD_SMOOTH_A: nat := 96
  const MODD_SMOOTH_B: nat := 97
  const MODD_RANGE_A: nat := 98
  const MODD_RANGE_B: nat := 99
  const MODD_MELODY_A: nat := 100
  const MODD_MELODY_B: nat := 101
  const MODD_SUB_A: nat := 102
  const MODD_SUB_B: nat := 103
  const MODD_DETUNE_A: nat := 104
  const MODD_DETUNE_B: nat := 105
  const MODD_ATTACK_A: nat := 106
  const MODD_ATTACK_B: nat := 107
  const MODD_DECAY_A: nat := 108
  const MODD_DECAY_B: nat := 109
  const MODD_RES_A: nat := 110
  const MODD_RES_B: nat := 111
  const MODD_COLOR_A: nat := 112
  const MODD_COLOR_B: nat := 113
  const MODD_TUNE_A: nat := 114
  const MODD_TUNE_B: nat := 115
  const MODD_LINK_A: nat := 116
  const MODD_LINK_B: nat := 117
  const MODD_COMP_A: nat := 118
  const MODD_COMP_B: nat := 119
  const MODD_PAN_A: nat := 120
  const MODD_PAN_B: nat := 121
  const MODD_MORPH: nat := 122
  const MODD_REV_SIZE: nat := 123
  const MODD_REV_DECAY: nat := 124
  const MODD_REV_TONE: nat := 125
  const MODD_REV_DIFF: nat := 126
  const MODD_TIDE: nat := 127
  const NUM_PARAMS: nat := 128

  const PART_STRIDE: nat := 20

  const LANE_COUNT: nat := 5
  const FXT_COUNT: nat := 5
  const PARTS: nat := 2

  /** What a depth drives: a lane target or an FX target of a deck's engine, or a
      term the host computes. */
  datatype Kind = TDEPTH | FXDEPTH | HOST

  datatype ModRow = ModRow(sound: nat, depth: nat, kind: Kind, slot: nat, part: nat)

  /** An engine-backed row names a deck and a slot inside its group. */
  type ModTarget = t: ModRow |
    && t.sound < NUM_PARAMS && t.depth < NUM_PARAMS
    && (t.kind != HOST ==> t.part < PARTS && t.slot < (if t.kind == TDEPTH then LANE_COUNT else FXT_COUNT))
    witness ModRow(0, 0, HOST, 0, 0)

  function Face(sound: nat, depth: nat, kind: Kind, slot: nat, part: nat): ModTarget
    requires sound < NUM_PARAMS && depth < NUM_PARAMS
    requires kind != HOST ==> part < PARTS && slot < (if kind == TDEPTH then LANE_COUNT else FXT_COUNT)
  {
    ModRow(sound, depth, kind, slot, part)
  }

  /** The texture depths TIMB, DPTH, FILT: lane targets. */
  const TEXTURE_ROWS: seq<ModTarget> := [
    Face(SOURCE_A, MODD_SOURCE_A, TDEPTH, 0, 0),
    Face(SOURCE_B, MODD_SOURCE_B, TDEPTH, 0, 1),
    Face(DEPTH_A, MODD_DEPTH_A, TDEPTH, 3, 0),
    Face(DEPTH_B, MODD_DEPTH_B, TDEPTH, 3, 1),
    Face(FILT_A, MODD_FILT_A, TDEPTH, 1, 0),
    Face(FILT_B, MODD_FILT_B, TDEPTH, 1, 1)
  ]

  /** MIX, FB and SEND: FX targets. */
  const FX_ROWS: seq<ModTarget> := [
    Face(FLUX_A, MODD_FLUX_A, FXDEPTH, 2, 0),
    Face(FLUX_B, MODD_FLUX_B, FXDEPTH, 2, 1),
    Face(FLUXFB_A, MODD_FLUXFB_A, FXDEPTH, 4, 0),
    Face(FLUXFB_B, MODD_FLUXFB_B, FXDEPTH, 4, 1),
    Face(REV_MIX_A, MODD_REV_MIX_A, FXDEPTH, 3, 0),
    Face(REV_MIX_B, MODD_REV_MIX_B, FXDEPTH, 3, 1)
  ]

  /** The faces whose modulation the host computes. */
  const LANE_ROWS: seq<ModTarget> := [
    Face(RATE_A, MODD_RATE_A, HOST, 1, 0),
    Face(RATE_B, MODD_RATE_B, HOST, 1, 1),
    Face(SHAPE_A, MODD_SHAPE_A, HOST, 3, 0),
    Face(SHAPE_B, MODD_SHAPE_B, HOST, 3, 1),
    Face(DENSITY_A, MODD_DENSITY_A, HOST, 3, 0),
    Face(DENSITY_B, MODD_DENSITY_B, HOST, 3, 1),
    Face(SMOOTH_A, MODD_SMOOTH_A, HOST, 1, 0),
    Face(SMOOTH_B, MODD_SMOOTH_B, HOST, 1, 1),
    Face(RANGE_A, MODD_RANGE_A, HOST, 1, 0),
    Face(RANGE_B, MODD_RANGE_B, HOST, 1, 1)
  ]

  const VOICE_ROWS: seq<ModTarget> := [
    Face(MELODY_A, MODD_MELODY_A, HOST, 4, 0),
    Face(MELODY_B, MODD_MELODY_B, HOST, 4, 1),
    Face(SUB_A, MODD_SUB_A, HOST, 4, 0),
    Face(SUB_B, MODD_SUB_B, HOST, 4, 1),
    Face(DETUNE_A, MODD_DETUNE_A, HOST, 0, 0),
    Face(DETUNE_B, MODD_DETUNE_B, HOST, 0, 1),
    Face(ATTACK_A, MODD_ATTACK_A, HOST, 3, 0),
    Face(ATTACK_B, MODD_ATTACK_B, HOST, 3, 1),
    Face(DECAY_A, MODD_DECAY_A, HOST, 3, 0),
    Face(DECAY_B, MODD_DECAY_B, HOST, 3, 1)
  ]

  const TONE_ROWS: seq<ModTarget> := [
    Face(RES_A, MODD_RES_A, HOST, 1, 0),
    Face(RES_B, MODD_RES_B, HOST, 1, 1),
    Face(COLOR_A, MODD_COLOR_A, HOST, 3, 0),
    Face(COLOR_B, MODD_COLOR_B, HOST, 3, 1),
    Face(TUNE_A, MODD_TUNE_A, HOST, 2, 0),
    Face(TUNE_B, MODD_TUNE_B, HOST, 2, 1),
    Face(LINK_A, MODD_LINK_A, HOST, 4, 0),
    Face(LINK_B, MODD_LINK_B, HOST, 4, 1),
    Face(COMP_A, MODD_COMP_A, HOST, 4, 0),
    Face(COMP_B, MODD_COMP_B, HOST, 4, 1)
  ]

  const CENTRE_ROWS: seq<ModTarget> := [
    Face(PAN_A, MODD_PAN_A, HOST, 1, 0),
    Face(PAN_B, MODD_PAN_B, HOST, 1, 1),
    Face(MORPH, MODD_MORPH, HOST, 3, 2),
    Face(REV_SIZE, MODD_REV_SIZE, HOST, 1, 2),
    Face(REV_DECAY, MODD_REV_DECAY, HOST, 1, 2),
    Face(REV_TONE, MODD_REV_TONE, HOST, 1, 2),
    Face(REV_DIFF, MODD_REV_DIFF, HOST, 1, 2),
    Face(TIDE, MODD_TIDE, HOST, 1, 2)
  ]

  const MOD_LAYER: seq<ModTarget> := TEXTURE_ROWS + FX_ROWS + LANE_ROWS + VOICE_ROWS + TONE_ROWS + CENTRE_ROWS

  const MOD_ROWS: nat := 50

  /** The depths of the rows of a group are a stretch of the depth block. */
  predicate InBlock(rows: seq<ModTarget>, first: nat) {
    forall k | 0 <= k < |rows| :: rows[k].depth == MODD_SOURCE_A + first + k && rows[k].sound < MODBTN
  }

  lemma {:induction false} GroupsInBlock()
    ensures |TEXTURE_ROWS| == 6 && InBlock(TEXTURE_ROWS, 0)
    ensures |FX_ROWS| == 6 && InBlock(FX_ROWS, 6)
    ensures |LANE_ROWS| == 10 && InBlock(LANE_ROWS, 12)
    ensures |VOICE_ROWS| == 10 && InBlock(VOICE_ROWS, 22)
    ensures |TONE_ROWS| == 10 && InBlock(TONE_ROWS, 32)
    ensures |CENTRE_ROWS| == 8 && InBlock(CENTRE_ROWS, 42)
  {
  }

  /** The layer is its groups one after the other. */
  lemma {:induction false} RowInGroup(k: nat)
    requires k < MOD_ROWS
    ensures |MOD_LAYER| == MOD_ROWS
    ensures MOD_LAYER[k] ==
            if k < 6 then TEXTURE_ROWS[k] else if k < 12 then FX_ROWS[k - 6] else if k < 22 then LANE_ROWS[k - 12]
            else if k < 32 then VOICE_ROWS[k - 22] else if k < 42 then TONE_ROWS[k - 32] else CENTRE_ROWS[k - 42]
  {
    hide TEXTURE_ROWS, FX_ROWS, LANE_ROWS, VOICE_ROWS, TONE_ROWS, CENTRE_ROWS;
    GroupsInBlock();
  }

  /** Row k's depth parameter is the k-th of the depth block, so no two rows share
      one, and none is a sound parameter. */
  lemma {:induction false} DepthBlock(k: nat)
    requires k < MOD_ROWS
    ensures |MOD_LAYER| == MOD_ROWS && MOD_LAYER[k].depth == MODD_SOURCE_A + k
    ensures MOD_LAYER[k].sound < MODBTN < MODD_SOURCE_A
  {
    hide TEXTURE_ROWS, FX_ROWS, LANE_ROWS, VOICE_ROWS, TONE_ROWS, CENTRE_ROWS;
    GroupsInBlock();
    RowInGroup(k);
  }
}
