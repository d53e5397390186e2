/**
 * Internal key codes, and the result of a read that yields no key.
 *
 * The key tables of both readers name their codes with the KEY_ identifiers of
 * the Linux input-event interface (linux/input-event-codes.h); the numeric
 * values below are the ones that interface assigns.  KEY_NULL is the code of a
 * table's terminating row.  Every code used by a table is below 2^16, so it
 * fits under the generation tag that the LircdName reader adds above bit 16.
 */
module Keys {

  /** What a reader's read returns when it yields no event. */
  const NoEvent: int := -1

  /** The code of a table's terminating row, and of a lookup that finds nothing. */
  const KEY_NULL: int := 0

  const KEY_1: int := 2
  const KEY_2: int := 3
  const KEY_3: int := 4
  const KEY_4: int := 5
  const KEY_5: int := 6
  const KEY_6: int := 7
  const KEY_7: int := 8
  const KEY_8: int := 9
  const KEY_9: int := 10
  const KEY_0: int := 11
  const KEY_T: int := 20
  const KEY_P: int := 25
  const KEY_F: int := 33
  const KEY_V: int := 47
  const KEY_F1: int := 59
  const KEY_F2: int := 60
  const KEY_F3: int := 61
  const KEY_HOME: int := 102
  const KEY_UP: int := 103
  const KEY_PAGEUP: int := 104
  const KEY_LEFT: int := 105
  const KEY_RIGHT: int := 106
  const KEY_DOWN: int := 108
  const KEY_PAGEDOWN: int := 109
  const KEY_MUTE: int := 113
  const KEY_VOLUMEDOWN: int := 114
  const KEY_VOLUMEUP: int := 115
  const KEY_POWER: int := 116
  const KEY_PAUSE: int := 119
  const KEY_STOP: int := 128
  const KEY_FIND: int := 136
  const KEY_HELP: int := 138
  const KEY_MENU: int := 139
  const KEY_BACK: int := 158
  const KEY_RECORD: int := 167
  const KEY_REWIND: int := 168
  const KEY_CLOSE: int := 206
  const KEY_PLAY: int := 207
  const KEY_FASTFORWARD: int := 208
  const KEY_MEDIA: int := 226
  const KEY_OK: int := 352
  const KEY_SELECT: int := 353
  const KEY_GOTO: int := 354
  const KEY_CLEAR: int := 355
  const KEY_POWER2: int := 356
  const KEY_OPTION: int := 357
  const KEY_INFO: int := 358
  const KEY_TIME: int := 359
  const KEY_VENDOR: int := 360
  const KEY_ARCHIVE: int := 361
  const KEY_PROGRAM: int := 362
  const KEY_CHANNEL: int := 363
  const KEY_FAVORITES: int := 364
  const KEY_EPG: int := 365
  const KEY_PVR: int := 366
  const KEY_MHP: int := 367
  const KEY_LANGUAGE: int := 368
  const KEY_TITLE: int := 369
  const KEY_SUBTITLE: int := 370
  const KEY_ANGLE: int := 371
  const KEY_ZOOM: int := 372
  const KEY_MODE: int := 373
  const KEY_KEYBOARD: int := 374
  const KEY_SCREEN: int := 375
  const KEY_PC: int := 376
  const KEY_TV: int := 377
  const KEY_TV2: int := 378
  const KEY_VCR: int := 379
  const KEY_VCR2: int := 380
  const KEY_SAT: int := 381
  const KEY_SAT2: int := 382
  const KEY_CD: int := 383
  const KEY_TAPE: int := 384
  const KEY_RADIO: int := 385
  const KEY_TUNER: int := 386
  const KEY_PLAYER: int := 387
  const KEY_TEXT: int := 388
  const KEY_DVD: int := 389
  const KEY_AUX: int := 390
  const KEY_MP3: int := 391
  const KEY_AUDIO: int := 392
  const KEY_VIDEO: int := 393
  const KEY_DIRECTORY: int := 394
  const KEY_LIST: int := 395
  const KEY_MEMO: int := 396
  const KEY_CALENDAR: int := 397
  const KEY_RED: int := 398
  const KEY_GREEN: int := 399
  const KEY_YELLOW: int := 400
  const KEY_BLUE: int := 401
  const KEY_CHANNELUP: int := 402
  const KEY_CHANNELDOWN: int := 403
  const KEY_FIRST: int := 404
  const KEY_LAST: int := 405
  const KEY_AB: int := 406
  const KEY_NEXT: int := 407
  const KEY_RESTART: int := 408
  const KEY_SLOW: int := 409
  const KEY_SHUFFLE: int := 410
  const KEY_BREAK: int := 411
  const KEY_PREVIOUS: int := 412
  const KEY_DIGITS: int := 413
  const KEY_TEEN: int := 414
  const KEY_TWEN: int := 415
}
